/** The path-following saw of objects/obstacles/saw/Saw.cs. It walks its
    waypoints, relative to where it was placed, and at the end of the path
    either heads back to the first waypoint or reverses the path in place. */
module Saws {
  import opened Vectors

  /** A sequence read back to front. */
  function Reversed<T>(s: seq<T>): (r: seq<T>)
    ensures |r| == |s|
    decreases |s|
  {
    if |s| == 0 then [] else Reversed(s[1..]) + [s[0]]
  }

  /** Element `k` of the reversed sequence is element `|s| - 1 - k`. */
  lemma {:induction false} ReversedIndex<T>(s: seq<T>, k: int)
    requires 0 <= k < |s|
    ensures Reversed(s)[k] == s[|s| - 1 - k]
    decreases |s|
  {
    if k < |s| - 1 {
      ReversedIndex(s[1..], k);
    }
  }

  /** Reversing keeps the waypoints: the same multiset. */
  lemma {:induction false} ReversedMultiset<T>(s: seq<T>)
    ensures multiset(Reversed(s)) == multiset(s)
    decreases |s|
  {
    if |s| > 0 {
      ReversedMultiset(s[1..]);
      assert s == [s[0]] + s[1..];
    }
  }

  /** Reversing twice restores the sequence. */
  lemma ReversedInvolution<T>(s: seq<T>)
    ensures Reversed(Reversed(s)) == s
  {
    forall k | 0 <= k < |s|
      ensures Reversed(Reversed(s))[k] == s[k]
    {
      ReversedIndex(Reversed(s), k);
      ReversedIndex(s, |s| - 1 - k);
    }
  }

  /** Reverses an array in place, as `Array.Reverse()`. */
  method ReverseInPlace<T>(a: array<T>)
    modifies a
    ensures a[..] == Reversed(old(a[..]))
  {
    var i, j := 0, a.Length - 1;
    while i < j
      invariant 0 <= i && i + j == a.Length - 1 && j < a.Length
      invariant i <= j + 1
      invariant forall k :: 0 <= k < i ==> a[k] == old(a[a.Length - 1 - k])
      invariant forall k :: j < k < a.Length ==> a[k] == old(a[a.Length - 1 - k])
      invariant forall k :: i <= k <= j ==> a[k] == old(a[k])
    {
      a[i], a[j] := a[j], a[i];
      i, j := i + 1, j - 1;
    }
    forall k | 0 <= k < a.Length
      ensures a[k] == Reversed(old(a[..]))[k]
    {
      ReversedIndex(old(a[..]), k);
    }
  }

  /** The points of the drawn path line: the waypoints, closed back to the
      first one when the saw returns to the start. */
  function LinePoints(path: seq<Vec2>, returnToStart: bool): (points: seq<Vec2>)
    requires |path| > 0
    ensures |points| == |path| + (if returnToStart then 1 else 0)
    ensures points[..|path|] == path
    ensures returnToStart ==> points[|path|] == path[0]
  {
    if returnToStart then path + [path[0]] else path
  }

  class Saw {
    /** The waypoints, relative to the placed position; may be missing. */
    const path: array?<Vec2>
    const returnToStart: bool
    const speed: real

    var rotationSpeed: real
    var pathIndex: int
    var initialPosition: Vec2
    var position: Vec2
    var enabled: bool
    var linePoints: seq<Vec2>
    var linePosition: Vec2
    var spriteRotationDegrees: real
    var spritePosition: Vec2

    constructor(path: array?<Vec2>, returnToStart: bool, speed: real, position: Vec2)
      ensures this.path == path && this.returnToStart == returnToStart && this.speed == speed
      ensures this.position == position && pathIndex == 0 && enabled && initialPosition == Zero
      ensures linePoints == [] && linePosition == Zero
      ensures rotationSpeed == 0.0 && spriteRotationDegrees == 0.0 && spritePosition == Zero
      ensures Valid()
    {
      this.path := path;
      this.returnToStart := returnToStart;
      this.speed := speed;
      this.position := position;
      rotationSpeed := 0.0;
      pathIndex := 0;
      initialPosition := Zero;
      enabled := true;
      linePoints := [];
      linePosition := Zero;
      spriteRotationDegrees := 0.0;
      spritePosition := Zero;
    }

    /** The saw walks only a path of at least two waypoints. */
    predicate Walks()
      reads this
    {
      path != null && path.Length > 1
    }

    /** The waypoint index stays non-negative and, on a path the saw walks,
        inside the path. */
    ghost predicate Valid()
      reads this
    {
      0 <= pathIndex && (Walks() ==> pathIndex < path.Length)
    }

    /** `_Ready`: takes the random spin (`spin`, a speed in 600..700 with a
        random sign), remembers the placed position, and draws the path. */
    method Ready(spin: real)
      modifies this`rotationSpeed, this`initialPosition, this`linePoints
      ensures rotationSpeed == spin && initialPosition == position
      ensures Walks() ==> linePoints == LinePoints(path[..], returnToStart)
      ensures !Walks() ==> linePoints == old(linePoints)
    {
      rotationSpeed := spin;
      initialPosition := position;
      if path != null && path.Length > 1 {
        linePoints := path[..];
        if returnToStart {
          linePoints := linePoints + [path[0]];
        }
      }
    }

    /** One frame: a visible, enabled saw spins and jitters to `jitter`, a
        random point of the unit circle. */
    method Process(delta: real, onScreen: bool, jitter: Vec2)
      modifies this`spriteRotationDegrees, this`spritePosition
      ensures onScreen && enabled ==>
        spriteRotationDegrees == old(spriteRotationDegrees) + rotationSpeed * delta
        && spritePosition == jitter
      ensures !(onScreen && enabled) ==>
        spriteRotationDegrees == old(spriteRotationDegrees) && spritePosition == old(spritePosition)
    {
      if onScreen && enabled {
        spriteRotationDegrees := spriteRotationDegrees + rotationSpeed * delta;
        spritePosition := jitter;
      }
    }

    /** One physics tick. `moveToward(from, to, step)` is the engine's
        `MoveToward`. An enabled saw on a walkable path steps toward its
        current waypoint; once within 1 of it, it moves on to the next, and
        after the last one it starts again from the first, reversing the
        path first unless it returns to the start. */
    method PhysicsProcess(delta: real, moveToward: (Vec2, Vec2, real) -> Vec2)
      requires Valid()
      modifies this`position, this`linePosition, this`pathIndex, path
      ensures Valid()
      ensures !(Walks() && enabled) ==>
        position == old(position) && linePosition == old(linePosition) && pathIndex == old(pathIndex)
        && (path != null ==> path[..] == old(path[..]))
      ensures Walks() && enabled ==>
        var target := Add(initialPosition, old(path[pathIndex]));
        position == moveToward(old(position), target, speed * delta)
        && linePosition == initialPosition
        && (DistanceSquared(position, target) >= 1.0 ==>
              pathIndex == old(pathIndex) && path[..] == old(path[..]))
        && (DistanceSquared(position, target) < 1.0 && old(pathIndex) + 1 < path.Length ==>
              pathIndex == old(pathIndex) + 1 && path[..] == old(path[..]))
        && (DistanceSquared(position, target) < 1.0 && old(pathIndex) + 1 == path.Length ==>
              pathIndex == 0
              && path[..] == (if returnToStart then old(path[..]) else Reversed(old(path[..]))))
      ensures returnToStart && path != null ==> path[..] == old(path[..])
    {
      if path != null && path.Length > 1 && enabled {
        var target := Add(initialPosition, path[pathIndex]);
        position := moveToward(position, target, speed * delta);
        linePosition := initialPosition;
        if DistanceSquared(position, target) < 1.0 {
          pathIndex := pathIndex + 1;
          if pathIndex >= path.Length {
            pathIndex := 0;
            if !returnToStart {
              ReverseInPlace(path);
            }
          }
        }
      }
    }
  }
}
