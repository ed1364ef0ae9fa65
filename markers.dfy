/** The information markers of the marker variant: one sprite per mark point,
    each remembered together with the mark's text, and the lookup that maps the
    first sprite hit by a click back to that text. */
module Markers {

  import opened Wrappers

  /** A point in world space. */
  datatype Vec3 = Vec3(x: real, y: real, z: real)

  /** A mark point: where the marker sits and what it tells. */
  datatype MarkPoint = MarkPoint(position: Vec3, info: string)

  /** A sprite of the scene. Sprites are compared by identity, as the
      viewer script's `===` does, so each one is an object. */
  class Sprite {
    const position: Vec3
    const scale: Vec3

    constructor (position: Vec3)
      ensures this.position == position && scale == Vec3(50.0, 50.0, 1.0)
    {
      this.position := position;
      scale := Vec3(50.0, 50.0, 1.0);
    }
  }

  /** An entry of the `sprites` list: the sprite and its mark's text. */
  datatype SpriteEntry = SpriteEntry(sprite: Sprite, info: string)

  /** No sprite appears in two entries. */
  predicate DistinctSprites(entries: seq<SpriteEntry>) {
    forall i, j :: 0 <= i < j < |entries| ==> entries[i].sprite != entries[j].sprite
  }

  /** `entries` has one entry per mark, in the marks' order, each carrying
      its mark's text. */
  predicate EntriesFor(entries: seq<SpriteEntry>, marks: seq<MarkPoint>) {
    && |entries| == |marks|
    && (forall i :: 0 <= i < |marks| ==> entries[i].info == marks[i].info)
    && DistinctSprites(entries)
  }

  /** `markPoints.forEach`: create a sprite at each mark's position and push
      it, with the mark's text, onto the list. */
  method BuildSprites(marks: seq<MarkPoint>) returns (sprites: seq<SpriteEntry>)
    ensures EntriesFor(sprites, marks)
    ensures forall i :: 0 <= i < |marks| ==> sprites[i].sprite.position == marks[i].position
    ensures forall i :: 0 <= i < |sprites| ==> sprites[i].sprite.scale == Vec3(50.0, 50.0, 1.0)
    ensures forall i :: 0 <= i < |sprites| ==> fresh(sprites[i].sprite)
  {
    sprites := [];
    var n := 0;
    while n < |marks|
      invariant n <= |marks| && |sprites| == n
      invariant forall i :: 0 <= i < n ==> sprites[i].info == marks[i].info
      invariant forall i :: 0 <= i < n ==> sprites[i].sprite.position == marks[i].position
      invariant forall i :: 0 <= i < n ==> sprites[i].sprite.scale == Vec3(50.0, 50.0, 1.0)
      invariant forall i :: 0 <= i < n ==> fresh(sprites[i].sprite)
      invariant DistinctSprites(sprites)
    {
      var sprite := new Sprite(marks[n].position);
      sprites := sprites + [SpriteEntry(sprite, marks[n].info)];
      n := n + 1;
    }
  }

  /** The sprite objects of the list, in order (`sprites.map(s => s.sprite)`),
      the only objects the click's ray is tested against. */
  function SpriteObjects(entries: seq<SpriteEntry>): seq<Sprite> {
    seq(|entries|, i requires 0 <= i < |entries| => entries[i].sprite)
  }

  /** `sprites.find(s => s.sprite === obj)`: the first entry holding `obj`,
      or nothing when no entry does. */
  function Find(entries: seq<SpriteEntry>, obj: Sprite): (r: Option<SpriteEntry>)
    ensures r.None? <==> forall i :: 0 <= i < |entries| ==> entries[i].sprite != obj
    ensures r.Some? ==> exists i :: 0 <= i < |entries| && entries[i] == r.value && r.value.sprite == obj
    decreases |entries|
  {
    if entries == [] then None
    else if entries[0].sprite == obj then Some(entries[0])
    else
      var rest := Find(entries[1..], obj);
      assert forall i :: 1 <= i < |entries| ==> entries[i] == entries[1..][i - 1];
      rest
  }

  /** Find returns the FIRST entry that holds the object. */
  lemma {:induction false} FindFirst(entries: seq<SpriteEntry>, obj: Sprite, i: nat)
    requires i < |entries| && entries[i].sprite == obj
    requires forall j :: 0 <= j < i ==> entries[j].sprite != obj
    ensures Find(entries, obj) == Some(entries[i])
    decreases i
  {
    if i > 0 {
      FindFirst(entries[1..], obj, i - 1);
    }
  }

  /** What a click resolves to: nothing when the ray hits no sprite;
      otherwise the text of the entry holding the nearest hit object, if
      any entry holds it. At most one text is ever produced. */
  function Selected(entries: seq<SpriteEntry>, intersects: seq<Sprite>): (r: Option<string>)
    ensures intersects == [] ==> r.None?
    ensures r.Some? ==> exists i :: 0 <= i < |entries| && entries[i].sprite == intersects[0] && entries[i].info == r.value
    ensures intersects != [] && intersects[0] in SpriteObjects(entries) ==> r.Some?
  {
    if |intersects| > 0 then
      match Find(entries, intersects[0])
      case Some(selected) => Some(selected.info)
      case None => None
    else None
  }

  /** The ray is cast only at the listed sprites, which have no children, so
      every object it reports is one of them. */
  predicate HitsOnlySprites(entries: seq<SpriteEntry>, intersects: seq<Sprite>) {
    forall o :: o in intersects ==> o in SpriteObjects(entries)
  }

  /** A ray cast at the listed sprites that hits anything selects exactly one
      text: that of the first entry holding the nearest hit. */
  lemma HitOnSpritesSelectsOne(entries: seq<SpriteEntry>, intersects: seq<Sprite>)
    requires HitsOnlySprites(entries, intersects) && intersects != []
    ensures Selected(entries, intersects).Some?
    ensures exists i :: 0 <= i < |entries| && entries[i].sprite == intersects[0]
                     && (forall j :: 0 <= j < i ==> entries[j].sprite != intersects[0])
                     && Selected(entries, intersects) == Some(entries[i].info)
  {
    var objects := SpriteObjects(entries);
    assert intersects[0] in objects;
    var i :| 0 <= i < |objects| && objects[i] == intersects[0];
    var k := 0;
    while entries[k].sprite != intersects[0]
      invariant 0 <= k <= i
      invariant forall j :: 0 <= j < k ==> entries[j].sprite != intersects[0]
      decreases i - k
    {
      k := k + 1;
    }
    FindFirst(entries, intersects[0], k);
  }

  /** When the sprites were built from the marks, a click whose nearest hit is
      the sprite of mark `j` shows exactly that mark's text. */
  lemma SelectedShowsMarkInfo(marks: seq<MarkPoint>, entries: seq<SpriteEntry>, intersects: seq<Sprite>, j: nat)
    requires EntriesFor(entries, marks)
    requires j < |entries| && intersects != [] && intersects[0] == entries[j].sprite
    ensures Selected(entries, intersects) == Some(marks[j].info)
  {
    FindFirst(entries, intersects[0], j);
  }
}
