/**
 * The ordered light list kept by `LightHandler` (and, with the same
 * behaviour, by `Scene`): append and erase by position.
 */
module LightList {
  import opened Lights

  /** The edited list and the boolean the C++ member returns. */
  datatype Edited = Edited(lights: seq<Light>, ok: bool)

  /** `AddLight`: appends a copy of `light` at the end and reports success. */
  function AddLight(lights: seq<Light>, light: Light): (r: Edited)
    ensures r.ok
    ensures |r.lights| == |lights| + 1
    ensures r.lights[|lights|] == light
    ensures forall i :: 0 <= i < |lights| ==> r.lights[i] == lights[i]
  {
    Edited(lights + [light], true)
  }

  /**
   * `RemoveLight(id)`: erases the light at position `id`; the others keep
   * their order, shifted down by one past `id`.
   */
  function RemoveLight(lights: seq<Light>, id: int): (r: Edited)
    requires 0 <= id < |lights|
    ensures r.ok
    ensures |r.lights| == |lights| - 1
    ensures forall i :: 0 <= i < id ==> r.lights[i] == lights[i]
    ensures forall i :: id <= i < |r.lights| ==> r.lights[i] == lights[i + 1]
    ensures multiset(r.lights) + multiset{lights[id]} == multiset(lights)
  {
    var rest := lights[..id] + lights[id + 1..];
    assert lights == lights[..id] + [lights[id]] + lights[id + 1..];
    Edited(rest, true)
  }

  /** A position in the list, standing for a `vector` iterator. */
  datatype Position = Position(offset: nat)

  /** `RemoveLight(iterator)`: erases the element the iterator designates. */
  function RemoveLightAt(lights: seq<Light>, it: Position): (r: Edited)
    requires it.offset < |lights|
    ensures r.ok
    ensures |r.lights| == |lights| - 1
    ensures r.lights == lights[..it.offset] + lights[it.offset + 1..]
  {
    RemoveLight(lights, it.offset)
  }

  /** Removing the light just appended restores the list. */
  lemma RemoveUndoesAdd(lights: seq<Light>, light: Light)
    ensures RemoveLight(AddLight(lights, light).lights, |lights|).lights == lights
  {
    var added := AddLight(lights, light).lights;
    assert added[..|lights|] == lights;
  }

  /** Both removal overloads erase the same element. */
  lemma RemovalOverloadsAgree(lights: seq<Light>, id: nat)
    requires id < |lights|
    ensures RemoveLightAt(lights, Position(id)) == RemoveLight(lights, id)
  {}
}
