/** The Sketch object: the viewport size, the image store and the per-frame
    state of the spinning plane, updated in place by its methods. */
module App {
  import opened Layout

  /** How much `time` advances per rendered frame. */
  const TimeStep: real := 0.05

  /** The value of `time` after n frames from construction: n repeated
      additions of TimeStep to zero, the way the frame step accumulates it. */
  function TimeAfter(n: nat): real {
    if n == 0 then 0.0 else TimeAfter(n - 1) + TimeStep
  }

  /** After n frames, `time` is exactly n times the step. */
  lemma {:induction false} TimeAfterIsLinear(n: nat)
    ensures TimeAfter(n) == n as real * TimeStep
  {
    if n > 0 {
      TimeAfterIsLinear(n - 1);
    }
  }

  /** `time` only grows, one step per frame. */
  lemma {:induction false} TimeAfterIncreasing(m: nat, n: nat)
    requires m < n
    ensures TimeAfter(m) < TimeAfter(n)
    ensures TimeAfter(n) - TimeAfter(m) == (n - m) as real * TimeStep
  {
    TimeAfterIsLinear(m);
    TimeAfterIsLinear(n);
  }

  /** The rotation of the spinning plane, about its x and y axes. */
  datatype Rotation = Rotation(x: real, y: real)

  /** The rotation the frame step derives from `time`. */
  function RotationAt(t: real): (r: Rotation)
    ensures r.y == 2.0 * r.x
    ensures t == 1000.0 * r.y
  {
    Rotation(t / 2000.0, t / 1000.0)
  }

  class Sketch {
    /** Accumulated frame time. */
    var time: real
    /** Viewport size, taken from the container. */
    var width: real
    var height: real
    /** The tracked image elements, in document order. */
    var images: seq<ImageElement>
    /** One record per tracked element, once the store has been built. */
    var imageStore: seq<ImageRecord>
    /** The spinning plane's rotation and the `time` value of its material. */
    var rotation: Rotation
    var uniformTime: real
    /** Frames rendered since construction. */
    ghost var frames: nat

    /** `time` is what `frames` frame steps accumulate. */
    ghost predicate Valid()
      reads this
    {
      time == TimeAfter(frames)
    }

    /** Construction up to the point where asset preloading takes over: the
        viewport is the container's size and the elements are collected. The
        store is empty until it is built. The source creates the spinning
        plane and its material only in addObjects; here its rotation and
        material time start at the values addObjects gives them. */
    constructor (containerWidth: real, containerHeight: real, pageImages: seq<ImageElement>)
      ensures Valid() && frames == 0 && time == 0.0
      ensures width == containerWidth && height == containerHeight
      ensures images == pageImages && imageStore == []
      ensures rotation == Rotation(0.0, 0.0) && uniformTime == 0.0
    {
      time := 0.0;
      width := containerWidth;
      height := containerHeight;
      images := pageImages;
      imageStore := [];
      rotation := Rotation(0.0, 0.0);
      uniformTime := 0.0;
      frames := 0;
    }

    /** What runs once fonts and images have loaded: build the store, place
        its meshes, create the spinning plane and render the first frame. */
    method Start()
      requires Valid() && frames == 0
      modifies this`imageStore, this`rotation, this`uniformTime, this`time, this`frames
      ensures Valid() && frames == 1 && time == TimeStep
      ensures imageStore == Positioned(Records(images), width, height)
      ensures rotation == RotationAt(time) && uniformTime == time
    {
      AddImages();
      SetPosition();
      AddObjects();
      Render();
    }

    /** The viewport takes the container's new size. The meshes are not
        moved: they keep the positions placed for the previous size. */
    method Resize(containerWidth: real, containerHeight: real)
      requires Valid()
      modifies this`width, this`height
      ensures Valid()
      ensures width == containerWidth && height == containerHeight
    {
      width := containerWidth;
      height := containerHeight;
    }

    /** Places every mesh of the store for the current viewport, record by
        record; nothing but the meshes changes. */
    method SetPosition()
      requires Valid()
      modifies this`imageStore
      ensures Valid()
      ensures imageStore == Positioned(old(imageStore), width, height)
    {
      var i := 0;
      while i < |imageStore|
        invariant 0 <= i <= |imageStore| == |old(imageStore)|
        invariant forall k :: 0 <= k < i ==>
          imageStore[k] == old(imageStore)[k].(mesh := Place(old(imageStore)[k], width, height))
        invariant forall k :: i <= k < |imageStore| ==> imageStore[k] == old(imageStore)[k]
      {
        var o := imageStore[i];
        var mesh := o.mesh.(y := -o.top + height / 2.0 - o.height / 2.0);
        mesh := mesh.(x := o.left - width / 2.0 + o.width / 2.0);
        imageStore := imageStore[i := o.(mesh := mesh)];
        i := i + 1;
      }
    }

    /** Builds the store from the tracked elements. */
    method AddImages()
      requires Valid()
      modifies this`imageStore
      ensures Valid()
      ensures imageStore == Records(images)
    {
      imageStore := Records(images);
    }

    /** Creates the spinning plane, unrotated, with its material's `time` at 0. */
    method AddObjects()
      requires Valid()
      modifies this`rotation, this`uniformTime
      ensures Valid()
      ensures rotation == Rotation(0.0, 0.0) && uniformTime == 0.0
    {
      rotation := Rotation(0.0, 0.0);
      uniformTime := 0.0;
    }

    /** One frame: advance `time` by one step, then derive the plane's
        rotation and its material's `time` from it. */
    method Render()
      requires Valid()
      modifies this`time, this`frames, this`rotation, this`uniformTime
      ensures Valid() && frames == old(frames) + 1
      ensures time == old(time) + TimeStep
      ensures rotation == RotationAt(time) && uniformTime == time
    {
      time := time + TimeStep;
      rotation := rotation.(x := time / 2000.0);
      rotation := rotation.(y := time / 1000.0);
      uniformTime := time;
      frames := frames + 1;
    }
  }

  /** The three-image page in an 800 by 600 container, through construction,
      start-up, a resize and a second frame. */
  method StartUpScenario() returns (s: Sketch)
    ensures s.time == 2.0 * TimeStep && s.width == 1000.0
    ensures |s.imageStore| == 3 && s.imageStore[1].mesh == Position(-310.0, 60.0)
  {
    var images := [ImageElement("a", Rect(0.0, 0.0, 100.0, 50.0)),
                   ImageElement("b", Rect(200.0, 50.0, 80.0, 80.0)),
                   ImageElement("c", Rect(500.0, 0.0, 100.0, 100.0))];
    s := new Sketch(800.0, 600.0, images);
    s.Start();
    ThreeImageExample();
    s.Resize(1000.0, 600.0);
    s.Render();
    TimeAfterIsLinear(s.frames);
  }
}
