/** The checkpoint of scenes/objects/checkpoint/Checkpoint.cs: the first
    player to touch it claims it with a number of attempts, and each death of
    that player while attempts remain is followed, one second later, by a
    resurrection above the checkpoint that uses up one attempt. */
module Checkpoints {
  import opened Wrappers
  import opened Vectors

  /** A texture of the number sprite, by identity. */
  type Texture = nat

  /** Indexing the number textures with a negative attempt count. */
  datatype CheckpointError = IndexOutOfRange

  /** The part of a player the checkpoint works with: its attempts counter. */
  class CheckpointPlayer {
    var checkpointAttempts: int

    constructor()
      ensures checkpointAttempts == 0
    {
      checkpointAttempts := 0;
    }
  }

  /** Where a resurrected player reappears: 32 units above the checkpoint. */
  function ResurrectionPoint(position: Vec2): (p: Vec2)
    ensures p.x == position.x && p.y == position.y - 32.0
  {
    Add(position, Scale(32.0, Vec2(0.0, -1.0)))
  }

  /** The sign's rotation after one tick: it eases toward a full turn and
      snaps to it from 359 degrees on. */
  function SignRotation(degrees: real): (r: real)
    ensures degrees >= 359.0 ==> r == 360.0
    ensures degrees <= 360.0 ==> degrees <= r <= 360.0
    ensures degrees < 359.0 ==> r - degrees == (360.0 - degrees) * 0.15
  {
    if degrees < 359.0 then degrees + (360.0 - degrees) * 0.15 else 360.0
  }

  class Checkpoint {
    const position: Vec2
    const availableAttempts: int
    const numbersTextures: seq<Texture>
    var currentPlayer: CheckpointPlayer?
    var resurrectTime: real
    var resurrectPlayer: bool
    var signVisible: bool
    var signRotationDegrees: real
    var numberVisible: bool
    var numberTexture: Option<Texture>

    /** The checkpoint as `_Ready` leaves it: unclaimed, the number hidden
        and the sign at a full turn. */
    constructor(position: Vec2, availableAttempts: int, numbersTextures: seq<Texture>)
      ensures this.position == position && this.availableAttempts == availableAttempts
      ensures this.numbersTextures == numbersTextures
      ensures currentPlayer == null && resurrectTime == 0.0 && !resurrectPlayer
      ensures signVisible && !numberVisible && signRotationDegrees == 360.0 && numberTexture == None
    {
      this.position := position;
      this.availableAttempts := availableAttempts;
      this.numbersTextures := numbersTextures;
      currentPlayer := null;
      resurrectTime := 0.0;
      resurrectPlayer := false;
      signVisible := true;
      signRotationDegrees := 360.0;
      numberVisible := false;
      numberTexture := None;
    }

    /** Shows the claimant's remaining attempts: no attempts hide the sign;
        otherwise the number sprite shows, with the texture for that count
        when there is one, and the sign turns back to 0 degrees. A negative
        count indexes the textures out of range, abandoning the rest. */
    method SetNumber() returns (r: Result<(), CheckpointError>)
      requires currentPlayer != null
      modifies this`signVisible, this`numberVisible, this`numberTexture, this`signRotationDegrees
      ensures var n := currentPlayer.checkpointAttempts;
        (r.Err? <==> n < 0)
        && (n == 0 ==>
              !signVisible && numberVisible == old(numberVisible) && numberTexture == old(numberTexture)
              && signRotationDegrees == old(signRotationDegrees))
        && (n > 0 ==>
              signVisible == old(signVisible) && numberVisible && signRotationDegrees == 0.0
              && numberTexture == (if n < |numbersTextures| then Some(numbersTextures[n]) else old(numberTexture)))
        && (n < 0 ==>
              signVisible == old(signVisible) && numberVisible == old(numberVisible)
              && numberTexture == old(numberTexture) && signRotationDegrees == old(signRotationDegrees))
    {
      var n := currentPlayer.checkpointAttempts;
      if n == 0 {
        signVisible := false;
        return Ok(());
      }
      if n < |numbersTextures| {
        if n < 0 {
          return Err(IndexOutOfRange);
        }
        numberTexture := Some(numbersTextures[n]);
      }
      numberVisible := true;
      signRotationDegrees := 0.0;
      r := Ok(());
    }

    /** A body touches the hitbox; `player` is its player part, or null for
        a body that is not a player. An unclaimed checkpoint is claimed by
        the first player, whose attempts become `availableAttempts`. */
    method OnHitboxEntered(player: CheckpointPlayer?) returns (r: Result<(), CheckpointError>)
      modifies this`currentPlayer, this`signVisible, this`numberVisible, this`numberTexture,
        this`signRotationDegrees, if player != null then {player} else {}
      ensures player != null && old(currentPlayer) == null ==>
        currentPlayer == player && player.checkpointAttempts == availableAttempts
        && (r.Err? <==> availableAttempts < 0)
        && (availableAttempts == 0 ==>
              !signVisible && numberVisible == old(numberVisible) && numberTexture == old(numberTexture)
              && signRotationDegrees == old(signRotationDegrees))
        && (availableAttempts > 0 ==>
              signVisible == old(signVisible) && numberVisible && signRotationDegrees == 0.0
              && numberTexture == (if availableAttempts < |numbersTextures| then Some(numbersTextures[availableAttempts])
                                   else old(numberTexture)))
        && (availableAttempts < 0 ==>
              signVisible == old(signVisible) && numberVisible == old(numberVisible)
              && numberTexture == old(numberTexture) && signRotationDegrees == old(signRotationDegrees))
      ensures !(player != null && old(currentPlayer) == null) ==>
        r.Ok? && currentPlayer == old(currentPlayer)
        && (player != null ==> player.checkpointAttempts == old(player.checkpointAttempts))
        && signVisible == old(signVisible) && numberVisible == old(numberVisible)
        && numberTexture == old(numberTexture) && signRotationDegrees == old(signRotationDegrees)
    {
      r := Ok(());
      if player != null && currentPlayer == null {
        player.checkpointAttempts := availableAttempts;
        currentPlayer := player;
        r := SetNumber();
      }
    }

    /** The death of `player`: only the claimant counts, and only while it
        has attempts left, in which case the resurrection is one second away. */
    method OnPlayerDeath(player: CheckpointPlayer)
      modifies this`resurrectTime
      ensures player == currentPlayer && player.checkpointAttempts > 0 ==> resurrectTime == 1.0
      ensures !(player == currentPlayer && player.checkpointAttempts > 0) ==>
        resurrectTime == old(resurrectTime)
    {
      if player != currentPlayer {
        return;
      }
      if currentPlayer.checkpointAttempts > 0 {
        resurrectTime := 1.0;
      }
    }

    /** One physics tick. While the countdown runs it goes down by `delta`
        and a resurrection is pending; once it has run out, a pending
        resurrection happens: one attempt is used, the player reappears at
        `resurrectAt`, and the number is redrawn. The sign eases round. */
    method PhysicsProcess(delta: real) returns (resurrectAt: Option<Vec2>, r: Result<(), CheckpointError>)
      modifies this`resurrectTime, this`resurrectPlayer, this`signVisible, this`numberVisible,
        this`numberTexture, this`signRotationDegrees, if currentPlayer != null then {currentPlayer} else {}
      ensures currentPlayer == old(currentPlayer)
      ensures old(currentPlayer) != null && old(resurrectTime) > 0.0 ==>
        resurrectTime == old(resurrectTime) - delta && resurrectPlayer && resurrectAt.None? && r.Ok?
        && currentPlayer.checkpointAttempts == old(currentPlayer.checkpointAttempts)
      ensures old(currentPlayer) != null && old(resurrectTime) <= 0.0 && old(resurrectPlayer) ==>
        resurrectTime == old(resurrectTime)
        && currentPlayer.checkpointAttempts == old(currentPlayer.checkpointAttempts) - 1
        && resurrectAt == Some(ResurrectionPoint(position))
        && (r.Err? <==> currentPlayer.checkpointAttempts < 0)
        && (r.Ok? ==> !resurrectPlayer)
      ensures (old(currentPlayer) == null || (old(resurrectTime) <= 0.0 && !old(resurrectPlayer))) ==>
        resurrectTime == old(resurrectTime) && resurrectPlayer == old(resurrectPlayer)
        && resurrectAt.None? && r.Ok?
        && (currentPlayer != null ==> currentPlayer.checkpointAttempts == old(currentPlayer.checkpointAttempts))
      ensures old(currentPlayer) != null && old(resurrectTime) <= 0.0 && old(resurrectPlayer) ==>
        var n := currentPlayer.checkpointAttempts;
        (n == 0 ==> !signVisible && numberVisible == old(numberVisible) && numberTexture == old(numberTexture))
        && (n > 0 ==> signVisible == old(signVisible) && numberVisible
                      && numberTexture == (if n < |numbersTextures| then Some(numbersTextures[n]) else old(numberTexture)))
        && (n < 0 ==> signVisible == old(signVisible) && numberVisible == old(numberVisible)
                      && numberTexture == old(numberTexture))
      ensures !(old(currentPlayer) != null && old(resurrectTime) <= 0.0 && old(resurrectPlayer)) ==>
        signVisible == old(signVisible) && numberVisible == old(numberVisible) && numberTexture == old(numberTexture)
      ensures r.Err? ==> resurrectPlayer && signRotationDegrees == old(signRotationDegrees)
      ensures r.Ok? ==> signRotationDegrees == SignRotation(if resurrectAt.Some? && currentPlayer.checkpointAttempts > 0
                                                            then 0.0 else old(signRotationDegrees))
    {
      resurrectAt, r := None, Ok(());
      if currentPlayer != null {
        if resurrectTime > 0.0 {
          resurrectTime := resurrectTime - delta;
          resurrectPlayer := true;
        } else if resurrectPlayer {
          currentPlayer.checkpointAttempts := currentPlayer.checkpointAttempts - 1;
          resurrectAt := Some(ResurrectionPoint(position));
          r := SetNumber();
          if r.Err? {
            return;
          }
          resurrectPlayer := false;
        }
      }
      signRotationDegrees := SignRotation(signRotationDegrees);
    }

    /** Game reset: the claim is released and the countdown cleared, the
        number hidden and the sign shown. A pending resurrection flag is
        kept. */
    method OnResetGame()
      modifies this`currentPlayer, this`resurrectTime, this`numberVisible, this`signVisible
      ensures currentPlayer == null && resurrectTime == 0.0 && !numberVisible && signVisible
    {
      currentPlayer := null;
      resurrectTime := 0.0;
      numberVisible := false;
      signVisible := true;
    }
  }

  /** A death with attempts left, then the one-second countdown run out in
      two ticks: the player is resurrected exactly once, with one attempt
      fewer, and nothing more happens on the tick after. */
  method DeathThenResurrection(c: Checkpoint, p: CheckpointPlayer)
    requires c.currentPlayer == p && p.checkpointAttempts > 0 && !c.resurrectPlayer
    modifies c, p
    ensures p.checkpointAttempts == old(p.checkpointAttempts) - 1
  {
    c.OnPlayerDeath(p);
    var at1, r1 := c.PhysicsProcess(1.0);
    assert at1.None? && c.resurrectTime == 0.0;
    var at2, r2 := c.PhysicsProcess(0.5);
    assert at2 == Some(ResurrectionPoint(c.position)) && r2.Ok?;
    var at3, r3 := c.PhysicsProcess(0.5);
    assert at3.None?;
  }

  /** A reset during the countdown keeps the pending flag, so a player that
      claims the checkpoint again is resurrected on the next tick without
      having died, using up an attempt. */
  method ResetDuringCountdown(c: Checkpoint, p: CheckpointPlayer, delta: real)
    requires c.currentPlayer == p && p.checkpointAttempts > 0 && c.availableAttempts > 0 && delta > 0.0
    modifies c, p
    ensures p.checkpointAttempts == c.availableAttempts - 1
  {
    c.OnPlayerDeath(p);
    var at1, r1 := c.PhysicsProcess(delta);
    c.OnResetGame();
    var claim := c.OnHitboxEntered(p);
    var at2, r2 := c.PhysicsProcess(delta);
    assert at2.Some?;
  }
}
