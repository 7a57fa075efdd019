/** Game-wide constants and the selected avatar of scripts/Globals.cs. */
module Globals {
  import opened Wrappers

  const GridSize: int := 16

  /** The maximum speed of any body on either axis: 16 * 40. */
  const MaxSpeed: real := 16.0 * 40.0

  /** An avatar's sprite frames, identified by name. */
  type SpriteFrames = string

  /** The index of the stored avatar after the setter clamps `value` into
      the avatar list; with no avatars a non-negative value stores -1. */
  function ClampAvatarIndex(value: int, count: nat): (r: int)
    ensures count > 0 ==> 0 <= r < count
    ensures 0 <= value < count ==> r == value
    ensures value < 0 ==> r == 0
    ensures value >= count ==> r == count - 1
  {
    if value < 0 then 0
    else if value >= count then count - 1
    else value
  }

  /** The static avatar state: the director's avatar list and the index. */
  class AvatarSelection {
    var avatars: seq<SpriteFrames>
    var avatarIndex: int

    constructor (avatars: seq<SpriteFrames>)
      ensures this.avatars == avatars && avatarIndex == 0
    {
      this.avatars := avatars;
      avatarIndex := 0;
    }

    /** The `AvatarIndex` setter. */
    method SetAvatarIndex(value: int)
      modifies this`avatarIndex
      ensures avatarIndex == ClampAvatarIndex(value, |avatars|)
      ensures |avatars| > 0 ==> 0 <= avatarIndex < |avatars|
    {
      var v := value;
      if v < 0 {
        v := 0;
      } else if v >= |avatars| {
        v := |avatars| - 1;
      }
      avatarIndex := v;
    }

    /** The `Avatar` getter; None stands for the index-out-of-range fault. */
    function Avatar(): (r: Option<SpriteFrames>)
      reads this
      ensures r.Some? <==> 0 <= avatarIndex < |avatars|
      ensures r.Some? ==> r.value == avatars[avatarIndex]
    {
      if 0 <= avatarIndex < |avatars| then Some(avatars[avatarIndex]) else None
    }
  }

  /** Once the setter has run on a non-empty list, the getter never faults. */
  lemma AvatarAfterSetInBounds(value: int, avatars: seq<SpriteFrames>)
    requires |avatars| > 0
    ensures var i := ClampAvatarIndex(value, |avatars|); 0 <= i < |avatars|
  {
  }
}
