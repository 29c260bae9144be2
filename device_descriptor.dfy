/**
 * A device descriptor: what a plugin reports about a device it discovered,
 * before the device is added.
 */
module DeviceDescriptors {
  /** Ids are uuids, written out; the null uuid marks an id that was never set. */
  type DeviceDescriptorId = string
  type DeviceClassId = string

  const NullId: string := "{00000000-0000-0000-0000-000000000000}"

  /** A parameter value, as the parameter type's id and the value written out. */
  datatype Param = Param(paramTypeId: string, value: string)

  class DeviceDescriptor {
    var id: DeviceDescriptorId
    var deviceClassId: DeviceClassId
    var title: string
    var description: string
    var params: seq<Param>

    /** An empty descriptor with a freshly generated id. */
    constructor Empty(generatedId: DeviceDescriptorId)
      requires generatedId != NullId
      ensures id == generatedId && deviceClassId == NullId
      ensures title == "" && description == "" && params == []
      ensures !IsValid()
    {
      id := generatedId;
      deviceClassId := NullId;
      title := "";
      description := "";
      params := [];
    }

    /** A descriptor of the given class with a freshly generated id. */
    constructor ForClass(deviceClassId: DeviceClassId, title: string, description: string, generatedId: DeviceDescriptorId)
      requires generatedId != NullId
      ensures this.id == generatedId && this.deviceClassId == deviceClassId
      ensures this.title == title && this.description == description && params == []
      ensures IsValid() <==> deviceClassId != NullId
    {
      this.id := generatedId;
      this.deviceClassId := deviceClassId;
      this.title := title;
      this.description := description;
      params := [];
    }

    /** A descriptor with every identifying field given. */
    constructor (id: DeviceDescriptorId, deviceClassId: DeviceClassId, title: string, description: string)
      ensures this.id == id && this.deviceClassId == deviceClassId
      ensures this.title == title && this.description == description && params == []
      ensures IsValid() <==> id != NullId && deviceClassId != NullId
    {
      this.id := id;
      this.deviceClassId := deviceClassId;
      this.title := title;
      this.description := description;
      params := [];
    }

    /** Valid exactly when neither id is null. */
    predicate IsValid()
      reads this
    {
      id != NullId && deviceClassId != NullId
    }

    method SetTitle(title: string)
      modifies this
      ensures this.title == title
      ensures id == old(id) && deviceClassId == old(deviceClassId)
      ensures description == old(description) && params == old(params)
      ensures IsValid() == old(IsValid())
    {
      this.title := title;
    }

    method SetDescription(description: string)
      modifies this
      ensures this.description == description
      ensures id == old(id) && deviceClassId == old(deviceClassId)
      ensures title == old(title) && params == old(params)
      ensures IsValid() == old(IsValid())
    {
      this.description := description;
    }

    method SetParams(params: seq<Param>)
      modifies this
      ensures this.params == params
      ensures id == old(id) && deviceClassId == old(deviceClassId)
      ensures title == old(title) && description == old(description)
      ensures IsValid() == old(IsValid())
    {
      this.params := params;
    }
  }
}
