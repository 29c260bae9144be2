/**
 * The state types an interface declares. Lists hold state types by value, so
 * a state type is a value here and setting its flag yields the changed copy.
 */
module InterfaceStates {
  datatype InterfaceStateType = InterfaceStateType(name: string, optional: bool)
  {
    /** The same state type with the flag set to `b`. */
    function SetOptional(b: bool): (r: InterfaceStateType)
      ensures r.optional == b
      ensures r.name == name
    {
      this.(optional := b)
    }
  }

  /** A default-constructed state type: no name, not optional. */
  const DefaultInterfaceStateType: InterfaceStateType := InterfaceStateType("", false)

  datatype InterfaceStateTypes = InterfaceStateTypes(items: seq<InterfaceStateType>)

  /** The list type built from a plain list keeps its elements and their order. */
  function FromList(list: seq<InterfaceStateType>): (r: InterfaceStateTypes)
    ensures |r.items| == |list|
    ensures forall i :: 0 <= i < |list| ==> r.items[i] == list[i]
  {
    InterfaceStateTypes(list)
  }

  predicate HasName(types: seq<InterfaceStateType>, name: string) {
    exists i :: 0 <= i < |types| && types[i].name == name
  }

  /** No state type before position `i` is called `name`. */
  predicate NoneNamedBefore(types: seq<InterfaceStateType>, name: string, i: nat)
    requires i <= |types|
  {
    forall j :: 0 <= j < i ==> types[j].name != name
  }

  /** The first state type, in list order, called `name`; the default state type when none is. */
  function FindByName(types: seq<InterfaceStateType>, name: string): (r: InterfaceStateType)
    ensures HasName(types, name) ==>
      exists i :: 0 <= i < |types| && types[i] == r && r.name == name && NoneNamedBefore(types, name, i)
    ensures !HasName(types, name) ==> r == DefaultInterfaceStateType
  {
    if types == [] then DefaultInterfaceStateType
    else if types[0].name == name then types[0]
    else
      var r := FindByName(types[1..], name);
      assert HasName(types, name) ==> HasName(types[1..], name) by {
        if HasName(types, name) {
          var i :| 0 <= i < |types| && types[i].name == name;
          assert types[1..][i - 1].name == name;
        }
      }
      assert HasName(types[1..], name) ==>
        exists i :: 0 <= i < |types| && types[i] == r && r.name == name && NoneNamedBefore(types, name, i) by {
        if HasName(types[1..], name) {
          var k :| 0 <= k < |types[1..]| && types[1..][k] == r && r.name == name && NoneNamedBefore(types[1..], name, k);
          assert types[k + 1] == r;
          assert NoneNamedBefore(types, name, k + 1) by {
            forall j | 0 <= j < k + 1 ensures types[j].name != name {
              if j > 0 {
                assert types[j] == types[1..][j - 1];
                assert types[1..][j - 1].name != name;
              }
            }
          }
        }
      }
      r
  }

  /** A name that occurs is found, and a found state type carries that name. */
  lemma {:induction false} FindByNameFindsPresentName(types: seq<InterfaceStateType>, i: nat)
    requires i < |types|
    ensures FindByName(types, types[i].name).name == types[i].name
    ensures FindByName(types, types[i].name) in types
  {
    assert HasName(types, types[i].name);
  }

  /** Among state types with distinct names, the search returns the one at the name's position. */
  lemma {:induction false} FindByNameUniqueNames(types: seq<InterfaceStateType>, i: nat)
    requires i < |types|
    requires forall j, k :: 0 <= j < k < |types| ==> types[j].name != types[k].name
    ensures FindByName(types, types[i].name) == types[i]
  {
    assert HasName(types, types[i].name);
    var r := FindByName(types, types[i].name);
    var k :| 0 <= k < |types| && types[k] == r && r.name == types[i].name && NoneNamedBefore(types, types[i].name, k);
    if k < i {
      assert types[k].name != types[i].name;
    }
    assert !(i < k);
  }
}
