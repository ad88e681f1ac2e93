/** Pointer, touch and keyboard handling (src/input/InputManager.ts): the
    interaction flag, the current and previous pointer positions, the queue
    of forces a drag produces, the pressed-key set and the key-callback map.
    Positions arrive already normalised to [0,1]; the DOM events, the
    canvas rectangle and the listener registration are outside the model. */
module Input {
  import opened JsMath
  import opened Options

  /** A position in normalised canvas coordinates. */
  datatype Point = Point(x: real, y: real)

  /** A colour in the hue/saturation/lightness form it is generated in; the
      HSL-to-RGB conversion is only colour arithmetic and stays out. */
  datatype Color = Hsl(hue: real, saturation: real, lightness: real)

  /** One force event handed to the fluid solver. */
  datatype Force = Force(x: real, y: real, dx: real, dy: real, color: Color)

  /** The three Math.random() values getRandomColor draws, in order: the hue
      step, the saturation jitter and the lightness jitter. */
  datatype ColorDraw = ColorDraw(hueStep: real, saturation: real, lightness: real)

  /** Every value Math.random() returns lies in [0, 1). */
  predicate IsRandom(u: real) {
    0.0 <= u < 1.0
  }

  predicate IsDraw(d: ColorDraw) {
    IsRandom(d.hueStep) && IsRandom(d.saturation) && IsRandom(d.lightness)
  }

  /** A drag must move further than this, on one axis, to push a force. */
  const MovementThreshold: real := 0.0001

  /** A pushed force carries ten times the pointer displacement. */
  const ForceScale: real := 10.0

  predicate Significant(dx: real, dy: real) {
    Abs(dx) > MovementThreshold || Abs(dy) > MovementThreshold
  }

  /** The colour hue after one colour draw: it advances by 0.1 plus up to
      0.2 and wraps back into [0, 1). */
  function NextHue(hue: real, step: real): (r: real)
    ensures 0.0 <= hue && 0.0 <= step ==> 0.0 <= r < 1.0
    ensures 0.0 <= hue < 1.0 && IsRandom(step) ==>
      r == hue + 0.1 + step * 0.2 || r == hue + 0.1 + step * 0.2 - 1.0
  {
    Rem1(hue + 0.1 + step * 0.2)
  }

  /** The colour of a pushed force: the new hue, a saturation in [0.8, 1)
      and a lightness in [0.5, 0.7). */
  function RandomColor(hue: real, d: ColorDraw): (c: Color)
    ensures c.hue == hue
    ensures IsDraw(d) ==> 0.8 <= c.saturation < 1.0 && 0.5 <= c.lightness < 0.7
  {
    Hsl(hue, 0.8 + d.saturation * 0.2, 0.5 + d.lightness * 0.2)
  }

  /** String.prototype.toLowerCase on one character, for the ASCII letters. */
  function LowerChar(c: char): (r: char)
    ensures 'A' <= c <= 'Z' ==> r as int == c as int + 32
    ensures !('A' <= c <= 'Z') ==> r == c
    ensures !('A' <= r <= 'Z')
  {
    if 'A' <= c <= 'Z' then (c as int + 32) as char else c
  }

  /** String.prototype.toLowerCase, character by character. */
  function Lower(s: string): (r: string)
    ensures |r| == |s|
    ensures forall i :: 0 <= i < |s| ==> r[i] == LowerChar(s[i])
  {
    if s == [] then [] else [LowerChar(s[0])] + Lower(s[1..])
  }

  /** A key name as the key set and the callback map store it. */
  predicate IsLower(s: string) {
    Lower(s) == s
  }

  /** Lower-casing a lower-cased key changes nothing more. */
  lemma LowerIsLower(s: string)
    ensures IsLower(Lower(s))
  {
    var t := Lower(s);
    assert forall i :: 0 <= i < |t| ==> Lower(t)[i] == t[i];
  }

  /** Two key names that differ only in letter case select the same entry. */
  lemma LowerIgnoresCase(a: string, b: string)
    requires |a| == |b|
    requires forall i :: 0 <= i < |a| ==> LowerChar(a[i]) == LowerChar(b[i])
    ensures Lower(a) == Lower(b)
  {
    assert forall i :: 0 <= i < |a| ==> Lower(a)[i] == Lower(b)[i];
  }

  class InputManager<Callback> {
    var interacting: bool
    var currentPos: Point
    var lastPos: Point
    var forces: seq<Force>
    var colorHue: real
    var keys: set<string>
    var keyCallbacks: map<string, Callback>

    /** The colour hue stays in [0, 1), and the key set and the callback
        map only hold lower-cased names. */
    ghost predicate Valid()
      reads this
    {
      && 0.0 <= colorHue < 1.0
      && (forall k :: k in keys ==> IsLower(k))
      && (forall k :: k in keyCallbacks ==> IsLower(k))
    }

    constructor ()
      ensures Valid()
      ensures !interacting && currentPos == Point(0.0, 0.0) && lastPos == Point(0.0, 0.0)
      ensures forces == [] && colorHue == 0.0 && keys == {} && keyCallbacks == map[]
    {
      interacting := false;
      currentPos := Point(0.0, 0.0);
      lastPos := Point(0.0, 0.0);
      forces := [];
      colorHue := 0.0;
      keys := {};
      keyCallbacks := map[];
    }

    /** Pushes one force when the pointer has moved far enough since the
        previous event: at the current position, with ten times the
        displacement and a freshly drawn colour. */
    method AddForce(draw: ColorDraw)
      requires Valid() && IsDraw(draw)
      modifies this
      ensures Valid()
      ensures var dx := old(currentPos.x - lastPos.x);
              var dy := old(currentPos.y - lastPos.y);
              if Significant(dx, dy) then
                && colorHue == NextHue(old(colorHue), draw.hueStep)
                && forces == old(forces) + [Force(currentPos.x, currentPos.y,
                                                  dx * ForceScale, dy * ForceScale,
                                                  RandomColor(colorHue, draw))]
              else
                colorHue == old(colorHue) && forces == old(forces)
      ensures interacting == old(interacting)
      ensures currentPos == old(currentPos) && lastPos == old(lastPos)
      ensures keys == old(keys) && keyCallbacks == old(keyCallbacks)
    {
      var dx := currentPos.x - lastPos.x;
      var dy := currentPos.y - lastPos.y;
      if Abs(dx) > MovementThreshold || Abs(dy) > MovementThreshold {
        colorHue := NextHue(colorHue, draw.hueStep);
        var color := RandomColor(colorHue, draw);
        forces := forces + [Force(currentPos.x, currentPos.y, dx * 10.0, dy * 10.0, color)];
      }
    }

    /** mousedown: interaction starts and both positions are set to the
        pointer, so the next displacement is measured from here. */
    method OnPointerDown(pos: Point)
      requires Valid()
      modifies this
      ensures Valid()
      ensures interacting && currentPos == pos && lastPos == pos
      ensures forces == old(forces) && colorHue == old(colorHue)
      ensures keys == old(keys) && keyCallbacks == old(keyCallbacks)
    {
      interacting := true;
      currentPos := pos;
      lastPos := pos;
    }

    /** mousemove: the old current position becomes the last one, and a
        force is pushed only during an interaction. */
    method OnPointerMove(pos: Point, draw: ColorDraw)
      requires Valid() && IsDraw(draw)
      modifies this
      ensures Valid()
      ensures lastPos == old(currentPos) && currentPos == pos
      ensures interacting == old(interacting)
      ensures var dx := pos.x - old(currentPos.x);
              var dy := pos.y - old(currentPos.y);
              if interacting && Significant(dx, dy) then
                && colorHue == NextHue(old(colorHue), draw.hueStep)
                && forces == old(forces) + [Force(pos.x, pos.y, dx * ForceScale, dy * ForceScale,
                                                  RandomColor(colorHue, draw))]
              else
                colorHue == old(colorHue) && forces == old(forces)
      ensures keys == old(keys) && keyCallbacks == old(keyCallbacks)
    {
      lastPos := currentPos;
      currentPos := pos;
      if interacting {
        AddForce(draw);
      }
    }

    /** mouseup and mouseleave: the interaction ends; nothing else changes. */
    method OnPointerUp()
      requires Valid()
      modifies this
      ensures Valid()
      ensures !interacting
      ensures currentPos == old(currentPos) && lastPos == old(lastPos)
      ensures forces == old(forces) && colorHue == old(colorHue)
      ensures keys == old(keys) && keyCallbacks == old(keyCallbacks)
    {
      interacting := false;
    }

    /** touchstart, given the normalised positions of the active touches:
        like mousedown at the first touch, and no change at all when the
        touch list is empty. */
    method OnTouchStart(touches: seq<Point>)
      requires Valid()
      modifies this
      ensures Valid()
      ensures |touches| > 0 ==> interacting && currentPos == touches[0] && lastPos == touches[0]
      ensures |touches| == 0 ==>
        interacting == old(interacting) && currentPos == old(currentPos) && lastPos == old(lastPos)
      ensures forces == old(forces) && colorHue == old(colorHue)
      ensures keys == old(keys) && keyCallbacks == old(keyCallbacks)
    {
      if |touches| > 0 {
        interacting := true;
        var pos := touches[0];
        currentPos := pos;
        lastPos := pos;
      }
    }

    /** touchmove: like mousemove at the first touch, and no change at all
        when the touch list is empty. */
    method OnTouchMove(touches: seq<Point>, draw: ColorDraw)
      requires Valid() && IsDraw(draw)
      modifies this
      ensures Valid()
      ensures interacting == old(interacting)
      ensures |touches| == 0 ==>
        && currentPos == old(currentPos) && lastPos == old(lastPos)
        && forces == old(forces) && colorHue == old(colorHue)
      ensures |touches| > 0 ==>
        && lastPos == old(currentPos) && currentPos == touches[0]
        && var dx := touches[0].x - old(currentPos.x);
           var dy := touches[0].y - old(currentPos.y);
           if interacting && Significant(dx, dy) then
             && colorHue == NextHue(old(colorHue), draw.hueStep)
             && forces == old(forces) + [Force(touches[0].x, touches[0].y,
                                               dx * ForceScale, dy * ForceScale,
                                               RandomColor(colorHue, draw))]
           else
             colorHue == old(colorHue) && forces == old(forces)
      ensures keys == old(keys) && keyCallbacks == old(keyCallbacks)
    {
      if |touches| > 0 {
        var pos := touches[0];
        lastPos := currentPos;
        currentPos := pos;
        if interacting {
          AddForce(draw);
        }
      }
    }

    /** touchend and touchcancel: the interaction ends; nothing else changes. */
    method OnTouchEnd()
      requires Valid()
      modifies this
      ensures Valid()
      ensures !interacting
      ensures currentPos == old(currentPos) && lastPos == old(lastPos)
      ensures forces == old(forces) && colorHue == old(colorHue)
      ensures keys == old(keys) && keyCallbacks == old(keyCallbacks)
    {
      interacting := false;
    }

    /** keydown: records the lower-cased key as pressed and returns the
        callback registered under it, which the caller then runs once. */
    method OnKeyDown(key: string) returns (callback: Option<Callback>)
      requires Valid()
      modifies this
      ensures Valid()
      ensures keys == old(keys) + {Lower(key)}
      ensures Lower(key) in keyCallbacks ==> callback == Some(keyCallbacks[Lower(key)])
      ensures Lower(key) !in keyCallbacks ==> callback == None
      ensures keyCallbacks == old(keyCallbacks)
      ensures interacting == old(interacting)
      ensures currentPos == old(currentPos) && lastPos == old(lastPos)
      ensures forces == old(forces) && colorHue == old(colorHue)
    {
      LowerIsLower(key);
      keys := keys + {Lower(key)};
      var k := Lower(key);
      if k in keyCallbacks {
        callback := Some(keyCallbacks[k]);
      } else {
        callback := None;
      }
    }

    /** keyup: the lower-cased key is no longer pressed. */
    method OnKeyUp(key: string)
      requires Valid()
      modifies this
      ensures Valid()
      ensures keys == old(keys) - {Lower(key)}
      ensures keyCallbacks == old(keyCallbacks)
      ensures interacting == old(interacting)
      ensures currentPos == old(currentPos) && lastPos == old(lastPos)
      ensures forces == old(forces) && colorHue == old(colorHue)
    {
      keys := keys - {Lower(key)};
    }

    /** Whether the key is held, whatever the letter case of its name. */
    method IsKeyPressed(key: string) returns (pressed: bool)
      requires Valid()
      ensures pressed <==> Lower(key) in keys
    {
      pressed := Lower(key) in keys;
    }

    /** Registers the callback under the lower-cased key, replacing any
        earlier registration for that key. */
    method OnKey(key: string, callback: Callback)
      requires Valid()
      modifies this
      ensures Valid()
      ensures keyCallbacks == old(keyCallbacks)[Lower(key) := callback]
      ensures keys == old(keys)
      ensures interacting == old(interacting)
      ensures currentPos == old(currentPos) && lastPos == old(lastPos)
      ensures forces == old(forces) && colorHue == old(colorHue)
    {
      LowerIsLower(key);
      keyCallbacks := keyCallbacks[Lower(key) := callback];
    }

    /** Hands over every queued force, in the order they were pushed, and
        empties the queue. */
    method GetForces() returns (result: seq<Force>)
      requires Valid()
      modifies this
      ensures Valid()
      ensures result == old(forces) && forces == []
      ensures interacting == old(interacting)
      ensures currentPos == old(currentPos) && lastPos == old(lastPos)
      ensures colorHue == old(colorHue)
      ensures keys == old(keys) && keyCallbacks == old(keyCallbacks)
    {
      result := forces;
      forces := [];
    }
  }
}
