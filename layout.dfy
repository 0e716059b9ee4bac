/** Page layout of the tracked images, the image store built from it, and the
    mapping from page coordinates (origin at the top-left corner of the
    container, y pointing down) to scene coordinates (origin at the centre of
    the viewport, y pointing up). All quantities are exact reals. */
module Layout {

  /** A bounding client rect, in page coordinates. */
  datatype Rect = Rect(top: real, left: real, width: real, height: real)

  /** A tracked image element: its source URL and its bounding rect at the
      moment the store is built. */
  datatype ImageElement = ImageElement(src: string, bounds: Rect)

  /** A plane mesh, reduced to its position in the scene. */
  datatype Position = Position(x: real, y: real)

  /** Where a freshly created mesh sits before anything moves it. */
  const Origin := Position(0.0, 0.0)

  /** One entry of the image store: the element it came from, its mesh, and
      the layout copied from the element's bounding rect. */
  datatype ImageRecord = ImageRecord(
    img: ImageElement,
    mesh: Position,
    top: real,
    left: real,
    width: real,
    height: real)

  /** Two records describe the same element with the same layout (their
      meshes may sit in different places). */
  predicate SameLayout(a: ImageRecord, b: ImageRecord) {
    a.img == b.img && a.top == b.top && a.left == b.left
    && a.width == b.width && a.height == b.height
  }

  /** The record built for one element: a fresh mesh and the element's bounds. */
  function NewRecord(img: ImageElement): ImageRecord {
    ImageRecord(img, Origin, img.bounds.top, img.bounds.left, img.bounds.width, img.bounds.height)
  }

  /** The image store built from the tracked elements: one record per
      element, in the elements' order, each holding that element's bounds. */
  function Records(images: seq<ImageElement>): (store: seq<ImageRecord>)
    ensures |store| == |images|
    ensures forall k :: 0 <= k < |images| ==>
      && store[k].img == images[k]
      && store[k].mesh == Origin
      && store[k].top == images[k].bounds.top
      && store[k].left == images[k].bounds.left
      && store[k].width == images[k].bounds.width
      && store[k].height == images[k].bounds.height
  {
    if images == [] then [] else [NewRecord(images[0])] + Records(images[1..])
  }

  /** The centre of a record's rect, in page coordinates. */
  function Centre(rec: ImageRecord): (real, real) {
    (rec.left + rec.width / 2.0, rec.top + rec.height / 2.0)
  }

  /** A page point carried into the scene of a viewport of the given size:
      the origin moves to the viewport centre and the y axis flips. */
  function ToScene(page: (real, real), viewWidth: real, viewHeight: real): Position {
    Position(page.0 - viewWidth / 2.0, viewHeight / 2.0 - page.1)
  }

  /** A scene point carried back to the page. */
  function ToPage(p: Position, viewWidth: real, viewHeight: real): (real, real) {
    (p.x + viewWidth / 2.0, viewHeight / 2.0 - p.y)
  }

  /** The position the store's repositioning gives a record's mesh in a
      viewport of the given size, written as the source writes it. */
  function Place(rec: ImageRecord, viewWidth: real, viewHeight: real): (p: Position)
    ensures p == ToScene(Centre(rec), viewWidth, viewHeight)
    ensures ToPage(p, viewWidth, viewHeight) == Centre(rec)
  {
    Position(rec.left - viewWidth / 2.0 + rec.width / 2.0,
             -rec.top + viewHeight / 2.0 - rec.height / 2.0)
  }

  /** The store after every mesh has been placed for the given viewport: the
      same records in the same order, each with its layout unchanged and its
      mesh at Place. */
  function Positioned(store: seq<ImageRecord>, viewWidth: real, viewHeight: real): (placed: seq<ImageRecord>)
    ensures |placed| == |store|
    ensures forall k :: 0 <= k < |store| ==>
      SameLayout(placed[k], store[k]) && placed[k].mesh == Place(store[k], viewWidth, viewHeight)
  {
    if store == [] then []
    else [store[0].(mesh := Place(store[0], viewWidth, viewHeight))]
         + Positioned(store[1..], viewWidth, viewHeight)
  }

  /** Going to the scene and back to the page, or to the page and back to
      the scene, is the identity. */
  lemma PageSceneRoundTrip(page: (real, real), p: Position, viewWidth: real, viewHeight: real)
    ensures ToPage(ToScene(page, viewWidth, viewHeight), viewWidth, viewHeight) == page
    ensures ToScene(ToPage(p, viewWidth, viewHeight), viewWidth, viewHeight) == p
  {
  }

  /** A mesh lands on the scene origin exactly when its rect is centred in
      the viewport. */
  lemma PlaceAtOriginIffCentred(rec: ImageRecord, viewWidth: real, viewHeight: real)
    ensures Place(rec, viewWidth, viewHeight) == Origin
            <==> Centre(rec) == (viewWidth / 2.0, viewHeight / 2.0)
  {
  }

  /** Placement keeps left-to-right order and reverses top-to-bottom order:
      of two rects, the one whose centre is lower on the page gets the
      smaller scene y. */
  lemma PlaceOrdering(a: ImageRecord, b: ImageRecord, viewWidth: real, viewHeight: real)
    ensures Centre(a).0 < Centre(b).0 <==> Place(a, viewWidth, viewHeight).x < Place(b, viewWidth, viewHeight).x
    ensures Centre(a).1 < Centre(b).1 <==> Place(a, viewWidth, viewHeight).y > Place(b, viewWidth, viewHeight).y
  {
  }

  /** Repositioning twice for the same viewport gives what repositioning
      once gives. */
  lemma PositionedIdempotent(store: seq<ImageRecord>, viewWidth: real, viewHeight: real)
    ensures Positioned(Positioned(store, viewWidth, viewHeight), viewWidth, viewHeight)
            == Positioned(store, viewWidth, viewHeight)
  {
  }

  /** Where the meshes end up depends only on the layouts and the viewport,
      not on where the meshes were before. */
  lemma PositionedForgetsMeshes(s: seq<ImageRecord>, t: seq<ImageRecord>, viewWidth: real, viewHeight: real)
    requires |s| == |t|
    requires forall k :: 0 <= k < |s| ==> SameLayout(s[k], t[k])
    ensures Positioned(s, viewWidth, viewHeight) == Positioned(t, viewWidth, viewHeight)
  {
  }

  /** Placing for another viewport shifts every mesh by half the change in
      width (leftwards as the viewport widens) and half the change in height
      (upwards as the viewport grows taller). */
  lemma ViewportShift(store: seq<ImageRecord>, w: real, h: real, w': real, h': real, k: nat)
    requires k < |store|
    ensures Positioned(store, w', h')[k].mesh.x == Positioned(store, w, h)[k].mesh.x - (w' - w) / 2.0
    ensures Positioned(store, w', h')[k].mesh.y == Positioned(store, w, h)[k].mesh.y + (h' - h) / 2.0
  {
  }

  /** Placements made for one viewport are wrong for a viewport of another
      width or height, as soon as the store holds a record. */
  lemma PlacementDependsOnViewport(store: seq<ImageRecord>, w: real, h: real, w': real, h': real)
    requires |store| > 0
    requires w != w' || h != h'
    ensures Positioned(store, w, h) != Positioned(store, w', h')
  {
  }

  /** A rect at the top-left corner, 100 wide and 50 high, in an 800 by 600
      viewport, ends up 350 left of and 275 above the centre. */
  lemma CornerExample()
    ensures Place(NewRecord(ImageElement("a", Rect(0.0, 0.0, 100.0, 50.0))), 800.0, 600.0)
            == Position(-350.0, 275.0)
  {
  }

  /** Three images in an 800 by 600 viewport, from page layout to scene
      positions through the store. */
  lemma ThreeImageExample()
    ensures
      var images := [ImageElement("a", Rect(0.0, 0.0, 100.0, 50.0)),
                     ImageElement("b", Rect(200.0, 50.0, 80.0, 80.0)),
                     ImageElement("c", Rect(500.0, 0.0, 100.0, 100.0))];
      var placed := Positioned(Records(images), 800.0, 600.0);
      |placed| == 3
      && placed[0].mesh == Position(-350.0, 275.0)
      && placed[1].mesh == Position(-310.0, 60.0)
      && placed[2].mesh == Position(-350.0, -250.0)
  {
  }
}
