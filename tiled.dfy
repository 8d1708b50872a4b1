/**
 * The part of a loaded Tiled map that the game queries: its objects, each with a name,
 * a type and a rectangle, in file order. Loading the file itself is not modelled.
 */
module Tiled {
  import opened Util
  import opened Geometry

  datatype TmxObject = TmxObject(name: string, kind: string, rect: Rect)

  datatype TmxData = TmxData(objects: seq<TmxObject>)

  /** True when some object of the map carries `name`. */
  predicate HasObject(tmx: TmxData, name: string)
  {
    exists i :: 0 <= i < |tmx.objects| && tmx.objects[i].name == name
  }

  /**
   * `tmx_data.get_object_by_name(name)`: the rectangle of the first object named `name`.
   * `None` stands for the ValueError the loader raises when no object has that name.
   */
  function GetObjectByName(tmx: TmxData, name: string): (r: Option<Rect>)
    ensures r.None? <==> !HasObject(tmx, name)
    ensures r.Some? ==> exists i :: 0 <= i < |tmx.objects| && tmx.objects[i].name == name
                                    && tmx.objects[i].rect == r.value
                                    && forall j :: 0 <= j < i ==> tmx.objects[j].name != name
    decreases |tmx.objects|
  {
    if |tmx.objects| == 0 then None
    else if tmx.objects[0].name == name then Some(tmx.objects[0].rect)
    else
      var rest := GetObjectByName(TmxData(tmx.objects[1..]), name);
      assert rest.Some? ==> exists i :: 1 <= i < |tmx.objects| && tmx.objects[i].name == name
                                        && tmx.objects[i].rect == rest.value
                                        && forall j :: 0 <= j < i ==> tmx.objects[j].name != name;
      rest
  }

  /** The rectangles of the objects whose type is "collision", in file order. */
  function CollisionRects(objects: seq<TmxObject>): (walls: seq<Rect>)
    ensures |walls| <= |objects|
  {
    if |objects| == 0 then []
    else CollisionRects(objects[..|objects| - 1])
         + (if objects[|objects| - 1].kind == "collision" then [objects[|objects| - 1].rect] else [])
  }

  /** A rectangle is a wall exactly when some collision object has it. */
  lemma {:induction false} CollisionRectsMembers(objects: seq<TmxObject>, r: Rect)
    ensures r in CollisionRects(objects) <==>
            exists i :: 0 <= i < |objects| && objects[i].kind == "collision" && objects[i].rect == r
  {
    if |objects| > 0 {
      var init := objects[..|objects| - 1];
      CollisionRectsMembers(init, r);
      if r in CollisionRects(init) {
        var i :| 0 <= i < |init| && init[i].kind == "collision" && init[i].rect == r;
        assert objects[i] == init[i];
      }
      if exists i :: 0 <= i < |objects| && objects[i].kind == "collision" && objects[i].rect == r {
        var i :| 0 <= i < |objects| && objects[i].kind == "collision" && objects[i].rect == r;
        if i < |init| { assert init[i] == objects[i]; }
      }
    }
  }

  /** Filtering keeps file order: walls taken from a prefix are a prefix of all walls. */
  lemma {:induction false} CollisionRectsPrefix(objects: seq<TmxObject>, k: nat)
    requires k <= |objects|
    ensures CollisionRects(objects[..k]) <= CollisionRects(objects)
    decreases |objects| - k
  {
    if k < |objects| {
      CollisionRectsPrefix(objects, k + 1);
      assert objects[..k + 1][..k] == objects[..k];
    } else {
      assert objects[..k] == objects;
    }
  }
}
