/** The drawing side of the simulator, without the drawing: the conversion
    between world and screen coordinates, the zoom clamp, and the particle
    list it keeps in step with the physics worker.  The canvas is reduced to
    its width and height. */
module Simulation {
  import opened Particles
  import opened Messages

  /** The side of the square world, in world units. */
  const SIM_SIZE: real := 5000.0

  datatype Point = Point(x: real, y: real)

  /** What the coordinate conversions read: the canvas size, the world size
      and the current pixels-per-world-unit scale. */
  datatype Viewport = Viewport(width: real, height: real, simSize: real, scale: real)

  /** A world length in pixels. */
  function Scaled(v: real, scale: real): real
  {
    v * scale
  }

  /** The screen offset of the world origin along an axis of `dim` pixels:
      half of what the scaled world leaves over, so the world is centred. */
  function CenterOffset(dim: real, simSize: real, scale: real): real
  {
    (dim - Scaled(simSize, scale)) / 2.0
  }

  /** The world position shown at screen position `(screenX, screenY)`. */
  function ScreenToWorld(v: Viewport, screenX: real, screenY: real): (w: Point)
    requires v.scale != 0.0
    ensures Scaled(w.x, v.scale) + CenterOffset(v.width, v.simSize, v.scale) == screenX
    ensures Scaled(w.y, v.scale) + CenterOffset(v.height, v.simSize, v.scale) == screenY
  {
    var offsetX := CenterOffset(v.width, v.simSize, v.scale);
    var offsetY := CenterOffset(v.height, v.simSize, v.scale);
    Point((screenX - offsetX) / v.scale, (screenY - offsetY) / v.scale)
  }

  /** The screen position at which world position `(worldX, worldY)` is
      drawn. */
  function WorldToScreen(v: Viewport, worldX: real, worldY: real): (s: Point)
    ensures s.x - CenterOffset(v.width, v.simSize, v.scale) == Scaled(worldX, v.scale)
    ensures s.y - CenterOffset(v.height, v.simSize, v.scale) == Scaled(worldY, v.scale)
  {
    Point(Scaled(worldX, v.scale) + CenterOffset(v.width, v.simSize, v.scale),
          Scaled(worldY, v.scale) + CenterOffset(v.height, v.simSize, v.scale))
  }

  /** Converting a world position to the screen and back gives it back. */
  lemma WorldScreenWorld(v: Viewport, worldX: real, worldY: real)
    requires v.scale != 0.0
    ensures var s := WorldToScreen(v, worldX, worldY);
      ScreenToWorld(v, s.x, s.y) == Point(worldX, worldY)
  {
    var s := WorldToScreen(v, worldX, worldY);
    var w := ScreenToWorld(v, s.x, s.y);
    CancelScale(w.x, worldX, v.scale);
    CancelScale(w.y, worldY, v.scale);
  }

  /** Converting a screen position to the world and back gives it back. */
  lemma ScreenWorldScreen(v: Viewport, screenX: real, screenY: real)
    requires v.scale != 0.0
    ensures var w := ScreenToWorld(v, screenX, screenY);
      WorldToScreen(v, w.x, w.y) == Point(screenX, screenY)
  {
  }

  lemma CancelScale(a: real, b: real, scale: real)
    requires scale != 0.0 && Scaled(a, scale) == Scaled(b, scale)
    ensures a == b
  {
    assert a == Scaled(a, scale) / scale;
  }

  /** Each screen coordinate depends on the matching world coordinate only,
      and moving `d` world units moves `d * scale` pixels. */
  lemma WorldToScreenAffine(v: Viewport, worldX: real, worldY: real, worldX': real, worldY': real)
    ensures WorldToScreen(v, worldX, worldY).x - WorldToScreen(v, worldX', worldY').x == Scaled(worldX - worldX', v.scale)
    ensures WorldToScreen(v, worldX, worldY).y - WorldToScreen(v, worldX', worldY').y == Scaled(worldY - worldY', v.scale)
  {
  }

  /** The centre of the world is drawn at the centre of the canvas. */
  lemma CentreToCentre(v: Viewport)
    ensures WorldToScreen(v, v.simSize / 2.0, v.simSize / 2.0) == Point(v.width / 2.0, v.height / 2.0)
  {
    assert Scaled(v.simSize / 2.0, v.scale) == Scaled(v.simSize, v.scale) / 2.0;
  }

  /** `Math.min` on two reals. */
  function Min(a: real, b: real): (r: real)
    ensures r <= a && r <= b && (r == a || r == b)
  {
    if a <= b then a else b
  }

  /** The scale at which the whole world fits the canvas along both axes:
      `min(width / simSize, height / simSize)`. */
  function CalculateMaxZoom(width: real, height: real, simSize: real): (fit: real)
    requires simSize != 0.0
    ensures fit <= width / simSize && fit <= height / simSize
    ensures fit == width / simSize || fit == height / simSize
  {
    var horizontalZoom := width / simSize;
    var verticalZoom := height / simSize;
    Min(horizontalZoom, verticalZoom)
  }

  /** At the fitting scale the whole world `[0, simSize]^2` is on the canvas,
      touching two opposite edges along at least one axis. */
  lemma {:induction false} FittedWorldIsVisible(v: Viewport)
    requires v.simSize > 0.0 && v.scale == CalculateMaxZoom(v.width, v.height, v.simSize)
    ensures var low := WorldToScreen(v, 0.0, 0.0);
      var high := WorldToScreen(v, v.simSize, v.simSize);
      && 0.0 <= low.x && high.x <= v.width
      && 0.0 <= low.y && high.y <= v.height
      && ((low.x == 0.0 && high.x == v.width) || (low.y == 0.0 && high.y == v.height))
  {
    var s := v.simSize;
    FitsWithin(s, v.width, v.scale);
    FitsWithin(s, v.height, v.scale);
    assert Scaled(0.0, v.scale) == 0.0;
    if v.scale == v.width / s {
      assert Scaled(s, v.scale) == v.width;
    } else {
      assert Scaled(s, v.scale) == v.height;
    }
  }

  lemma FitsWithin(s: real, dim: real, scale: real)
    requires s > 0.0 && scale <= dim / s
    ensures Scaled(s, scale) <= dim
  {
    assert s * scale <= s * (dim / s);
  }

  /** The relative zoom change of a wheel step: scrolling down (positive
      `deltaY`) zooms out. */
  function ZoomDelta(deltaY: real, sensitivity: real): real
  {
    -deltaY * sensitivity
  }

  /** The zoom a wheel step asks for, before the clamp. */
  function RequestedZoom(zoom: real, zoomDelta: real): real
  {
    zoom * (1.0 + zoomDelta)
  }

  /** The zoom after a wheel step of `deltaY`: the requested zoom, raised to
      `maxZoom` when zooming out and to `minZoom` otherwise. */
  function ClampedZoom(zoom: real, minZoom: real, maxZoom: real, sensitivity: real, deltaY: real): (z: real)
    ensures var zoomDelta := ZoomDelta(deltaY, sensitivity);
      var newZoom := RequestedZoom(zoom, zoomDelta);
      var floor := if zoomDelta < 0.0 then maxZoom else minZoom;
      && z >= floor && z >= newZoom
      && (z == floor || z == newZoom)
  {
    var zoomDelta := ZoomDelta(deltaY, sensitivity);
    var newZoom := RequestedZoom(zoom, zoomDelta);
    if zoomDelta < 0.0 then Max(maxZoom, newZoom) else Max(minZoom, newZoom)
  }

  /** Zooming in (a wheel step with `zoomDelta >= 0`) from a non-negative
      zoom never lowers the zoom. */
  lemma {:induction false} ZoomInGrows(zoom: real, minZoom: real, maxZoom: real, sensitivity: real, deltaY: real)
    requires zoom >= 0.0 && ZoomDelta(deltaY, sensitivity) >= 0.0
    ensures ClampedZoom(zoom, minZoom, maxZoom, sensitivity, deltaY) >= zoom
  {
    var zoomDelta := ZoomDelta(deltaY, sensitivity);
    assert RequestedZoom(zoom, zoomDelta) == zoom + zoom * zoomDelta;
    assert zoom * zoomDelta >= 0.0;
  }

  /** The snapshots of a list of particle objects, in order. */
  function Serialized(ps: seq<Particle>): (r: seq<Snapshot>)
    reads set k | 0 <= k < |ps| :: ps[k]
    ensures |r| == |ps|
    ensures forall k :: 0 <= k < |ps| ==> r[k] == ps[k].Serialize()
  {
    if ps == [] then [] else [ps[0].Serialize()] + Serialized(ps[1..])
  }

  /** The simulator object, reduced to its canvas size, zoom state and
      particle list. */
  class Simulator {
    var width: real
    var height: real
    const simSize: real := SIM_SIZE
    var zoom: real
    const minZoom: real := 0.1
    const zoomSensitivity: real := 0.001
    var scale: real
    var particles: seq<Particle>

    /** A simulator with no particles over a `width x height` canvas, at zoom
        1, so the whole world fits the canvas. */
    constructor (width: real, height: real)
      ensures this.width == width && this.height == height
      ensures particles == [] && zoom == 1.0
      ensures scale == CalculateMaxZoom(width, height, simSize) * zoom
    {
      this.width := width;
      this.height := height;
      particles := [];
      zoom := 1.0;
      new;
      scale := CalculateMaxZoom(width, height, simSize) * zoom;
    }

    /** What the coordinate conversions read. */
    function View(): Viewport
      reads this
    {
      Viewport(width, height, simSize, scale)
    }

    /** `calculateMaxZoom` of the current canvas. */
    function MaxZoom(): real
      reads this
    {
      CalculateMaxZoom(width, height, simSize)
    }

    /** One wheel step: the clamped zoom, and the scale it implies. */
    method HandleZoom(deltaY: real)
      modifies this`zoom, this`scale
      ensures zoom == ClampedZoom(old(zoom), minZoom, MaxZoom(), zoomSensitivity, deltaY)
      ensures scale == MaxZoom() * zoom
    {
      var zoomDelta := ZoomDelta(deltaY, zoomSensitivity);
      var newZoom := RequestedZoom(zoom, zoomDelta);
      var maxZoom := MaxZoom();
      if zoomDelta < 0.0 {
        zoom := Max(maxZoom, newZoom);
      } else {
        zoom := Max(minZoom, newZoom);
      }
      scale := Min(width / simSize, height / simSize) * zoom;
    }

    /** Appends a new particle at rest and returns it, with the update
        message that hands the whole list to the physics worker. */
    method AddParticle(x: real, y: real, mass: real, size: real) returns (particle: Particle, posted: Message)
      modifies this`particles
      ensures fresh(particle)
      ensures particles == old(particles) + [particle]
      ensures particle.Serialize() == Snapshot(x, y, 0.0, 0.0, 0.0, 0.0, mass, size)
      ensures posted == Update(Serialized(particles))
    {
      particle := new Particle(x, y, mass, size);
      particles := particles + [particle];
      posted := Update(Serialized(particles));
    }

    /** Empties the list, and tells the physics worker so. */
    method Clear() returns (posted: Message)
      modifies this`particles
      ensures particles == []
      ensures posted == Update([])
    {
      particles := [];
      posted := Update(Serialized(particles));
    }

    /** An update from the physics worker replaces the list with one new
        particle object per snapshot, in order; any other message is
        ignored. */
    method HandlePhysicsMessage(msg: Message)
      modifies this`particles
      ensures msg.Update? ==> Serialized(particles) == msg.particles
      ensures msg.Update? ==> forall k :: 0 <= k < |particles| ==> fresh(particles[k])
      ensures msg.Update? ==> forall a, b :: 0 <= a < b < |particles| ==> particles[a] != particles[b]
      ensures !msg.Update? ==> particles == old(particles)
    {
      if msg.Update? {
        var incoming := msg.particles;
        var deserialized: seq<Particle> := [];
        for i := 0 to |incoming|
          invariant |deserialized| == i
          invariant forall k :: 0 <= k < i ==> fresh(deserialized[k])
          invariant forall k :: 0 <= k < i ==> deserialized[k].Serialize() == incoming[k]
          invariant forall a, b :: 0 <= a < b < i ==> deserialized[a] != deserialized[b]
        {
          var p := Particle.Deserialize(incoming[i]);
          deserialized := deserialized + [p];
        }
        particles := deserialized;
      }
    }
  }
}
