/** The document viewer's zoom: starts at 100 %, moves in steps of 10
    between 50 % and 200 %. */
module DocumentViewer {

  const MinZoom := 50
  const MaxZoom := 200
  const Step := 10
  const InitialZoom := 100

  /** The zoom levels the buttons can reach. */
  predicate ValidZoom(z: int)
  {
    MinZoom <= z <= MaxZoom && z % Step == 0
  }

  /** `Math.max(50, zoom - 10)`. */
  function ZoomedOut(z: int): (r: int)
    ensures r >= MinZoom
    ensures ValidZoom(z) ==> ValidZoom(r)
    ensures z <= MinZoom + Step ==> r == MinZoom
    ensures z > MinZoom + Step ==> r == z - Step
  {
    if z - Step > MinZoom then z - Step else MinZoom
  }

  /** `Math.min(200, zoom + 10)`. */
  function ZoomedIn(z: int): (r: int)
    ensures r <= MaxZoom
    ensures ValidZoom(z) ==> ValidZoom(r)
    ensures z >= MaxZoom - Step ==> r == MaxZoom
    ensures z < MaxZoom - Step ==> r == z + Step
  {
    if z + Step < MaxZoom then z + Step else MaxZoom
  }

  /** At the limits the buttons do nothing; inside them the two undo each
      other. */
  lemma ZoomLimits(z: int)
    requires ValidZoom(z)
    ensures ZoomedOut(MinZoom) == MinZoom && ZoomedIn(MaxZoom) == MaxZoom
    ensures z < MaxZoom ==> ZoomedOut(ZoomedIn(z)) == z
    ensures z > MinZoom ==> ZoomedIn(ZoomedOut(z)) == z
  {
  }

  /** The zoom after a run of clicks from a level; `true` is zoom in. */
  function AfterClicks(z: int, clicks: seq<bool>): int
    decreases clicks
  {
    if clicks == [] then z
    else AfterClicks(if clicks[0] then ZoomedIn(z) else ZoomedOut(z), clicks[1..])
  }

  /** From the initial level, every run of clicks stays within 50..200 on a
      multiple of 10. */
  lemma {:induction false} ClicksStayValid(z: int, clicks: seq<bool>)
    requires ValidZoom(z)
    ensures ValidZoom(AfterClicks(z, clicks))
    decreases clicks
  {
    if clicks != [] {
      ClicksStayValid(if clicks[0] then ZoomedIn(z) else ZoomedOut(z), clicks[1..]);
    }
  }

  lemma InitialValid()
    ensures ValidZoom(InitialZoom)
    ensures forall clicks: seq<bool> :: ValidZoom(AfterClicks(InitialZoom, clicks))
  {
    forall clicks: seq<bool>
      ensures ValidZoom(AfterClicks(InitialZoom, clicks))
    {
      ClicksStayValid(InitialZoom, clicks);
    }
  }

  /** The viewer's zoom state. */
  class Viewer {
    var zoom: int

    predicate Valid()
      reads this
    {
      ValidZoom(zoom)
    }

    constructor ()
      ensures zoom == InitialZoom && Valid()
    {
      zoom := InitialZoom;
    }

    method ZoomOut()
      requires Valid()
      modifies this
      ensures zoom == ZoomedOut(old(zoom)) && Valid()
    {
      zoom := if zoom - Step > MinZoom then zoom - Step else MinZoom;
    }

    method ZoomIn()
      requires Valid()
      modifies this
      ensures zoom == ZoomedIn(old(zoom)) && Valid()
    {
      zoom := if zoom + Step < MaxZoom then zoom + Step else MaxZoom;
    }
  }
}
