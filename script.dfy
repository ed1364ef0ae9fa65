/** The first icon variant of the viewer: four panoramas, a single
    information icon, and a click on the icon showing the next panorama. */
module Script {
  import opened Wrappers
  import opened Look
  import Gallery

  /** The panoramas, in display order. */
  const Images: seq<string> := [
    "public/assets/test.jpg",
    "public/assets/milkway.jpg",
    "public/assets/vlw-mw-potw.jpg",
    "public/assets/armazones-sunset360.jpg"
  ]

  /** The viewer's mutable state: the drag controller with the camera
      rotation, and the index of the panorama on display. */
  class Tour {
    const look: Controller
    var currentImageIndex: nat

    ghost predicate Valid()
      reads this, look
    {
      look.Valid() && currentImageIndex < |Images|
    }

    /** Start-up: not dragging, both pointer positions at the origin, the
        camera unrotated, the first panorama on display. */
    constructor ()
      ensures Valid() && fresh(look)
      ensures look.State() == Initial() && currentImageIndex == 0
    {
      look := new Controller();
      currentImageIndex := 0;
    }

    /** mousedown: starts a drag at `p`; the camera and the panorama stay. */
    method MouseDown(p: Point)
      requires Valid()
      modifies look`isDragging, look`previousMousePosition, look`mouseDownPosition
      ensures Valid()
      ensures look.isDragging && look.previousMousePosition == p && look.mouseDownPosition == p
      ensures look.State() == Press(old(look.State()), p)
    {
      look.MouseDown(p);
    }

    /** mouseup at `p`, where `iconHit` is the raycaster's answer to whether
        the ray through `p` meets the icon. The drag always ends; only a click
        that hits the icon moves to the next panorama and asks for its
        texture (`load`); a drag or a miss leaves the index alone. */
    method MouseUp(p: Point, iconHit: bool) returns (load: Option<nat>)
      requires Valid()
      modifies look`isDragging, this`currentImageIndex
      ensures Valid()
      ensures !look.isDragging && look.State() == Release(old(look.State()))
      ensures IsClick(look.mouseDownPosition, p) && iconHit ==>
        && currentImageIndex == Gallery.Next(old(currentImageIndex), |Images|)
        && load == Some(currentImageIndex)
      ensures !(IsClick(look.mouseDownPosition, p) && iconHit) ==>
        currentImageIndex == old(currentImageIndex) && load == None
    {
      var click := look.MouseUp(p);
      load := None;
      if click && iconHit {
        currentImageIndex := (currentImageIndex + 1) % |Images|;
        load := Some(currentImageIndex);
      }
    }

    /** mousemove: turns the camera only while dragging; the press position
        and the panorama stay. */
    method MouseMove(p: Point)
      requires Valid()
      modifies look`rotation, look`previousMousePosition
      ensures Valid()
      ensures look.State() == Move(old(look.State()), p)
      ensures look.mouseDownPosition == old(look.mouseDownPosition)
    {
      look.MouseMove(p);
    }
  }
}
