/** The marker variant of the viewer: one panorama, a sprite per mark point,
    and a click on a marker showing that mark's text. */
module Testee {
  import opened Wrappers
  import opened Look
  import opened Markers

  /** The mark points, in the order their sprites are created. */
  const MarkPoints: seq<MarkPoint> := [
    MarkPoint(Vec3(100.0, 50.0, -200.0), "Art Piece 1: Description goes here."),
    MarkPoint(Vec3(-150.0, 20.0, 300.0), "Integrantes do grupo: Arthur, Gustavo, Caio, Danilo, Kaua")
  ]

  /** The viewer's state: the drag controller with the camera rotation, and
      the list pairing each marker sprite with its text. */
  class Tour {
    const look: Controller
    const sprites: seq<SpriteEntry>

    ghost predicate Valid()
      reads this, look
    {
      look.Valid() && EntriesFor(sprites, MarkPoints)
    }

    /** Start-up: one fresh sprite per mark point, at its position and with
        its text; the controller in its initial state. */
    constructor ()
      ensures Valid() && fresh(look)
      ensures look.State() == Initial()
      ensures |sprites| == 2
      ensures forall i :: 0 <= i < |sprites| ==>
        fresh(sprites[i].sprite) && sprites[i].sprite.position == MarkPoints[i].position
    {
      var built := BuildSprites(MarkPoints);
      sprites := built;
      look := new Controller();
    }

    /** mousedown: starts a drag at `p`; the camera stays. */
    method MouseDown(p: Point)
      requires Valid()
      modifies look`isDragging, look`previousMousePosition, look`mouseDownPosition
      ensures Valid()
      ensures look.isDragging && look.previousMousePosition == p && look.mouseDownPosition == p
      ensures look.State() == Press(old(look.State()), p)
    {
      look.MouseDown(p);
    }

    /** mouseup at `p`, where `intersects` is what the raycaster reports for
        the ray through `p`: the objects hit, nearest first. The drag always
        ends. A drag release shows nothing; a click shows the text of the
        entry holding the nearest hit object, if there is one, and at most
        one text is shown. Since the ray is cast only at the marker sprites,
        a click that hits anything shows exactly one text. */
    method MouseUp(p: Point, intersects: seq<Sprite>) returns (shown: Option<string>)
      requires Valid()
      modifies look`isDragging
      ensures Valid()
      ensures !look.isDragging && look.State() == Release(old(look.State()))
      ensures !IsClick(look.mouseDownPosition, p) ==> shown == None
      ensures IsClick(look.mouseDownPosition, p) ==> shown == Selected(sprites, intersects)
      ensures forall j :: 0 <= j < |sprites| && IsClick(look.mouseDownPosition, p)
                       && intersects != [] && intersects[0] == sprites[j].sprite
                       ==> shown == Some(MarkPoints[j].info)
      ensures IsClick(look.mouseDownPosition, p) && intersects != [] && HitsOnlySprites(sprites, intersects)
              ==> shown.Some?
    {
      var click := look.MouseUp(p);
      shown := None;
      if click {
        if |intersects| > 0 {
          var selected := Find(sprites, intersects[0]);
          if selected.Some? {
            shown := Some(selected.value.info);
          }
        }
      }
      forall j | 0 <= j < |sprites| && click && intersects != [] && intersects[0] == sprites[j].sprite
        ensures shown == Some(MarkPoints[j].info)
      {
        SelectedShowsMarkInfo(MarkPoints, sprites, intersects, j);
      }
      if click && intersects != [] && HitsOnlySprites(sprites, intersects) {
        HitOnSpritesSelectsOne(sprites, intersects);
      }
    }

    /** mousemove: turns the camera only while dragging; the press position
        stays. */
    method MouseMove(p: Point)
      requires Valid()
      modifies look`rotation, look`previousMousePosition
      ensures Valid()
      ensures look.State() == Move(old(look.State()), p)
      ensures look.mouseDownPosition == old(look.mouseDownPosition)
    {
      look.MouseMove(p);
    }
  }
}
