/** Life-script opcodes that change the state of one actor: its model and
    animation, movement mode, collision flags, door position, life points and
    death, position on a scene track, and the bonus it gives. */
module LifeActors {
  import opened Bytes
  import opened LifeTypes
  import opened LifeEngine
  import opened LifeFlow

  /** A door opened by `delta` along one axis from its last position: it faces
      `angle`, stands still, and nothing else about it changes. */
  function DoorMoved(a: Actor, angle: int, alongX: bool, delta: int): (d: Actor)
    ensures d.angle == angle && !d.isSpriteMoving && d.speed == 0
    ensures d.pos.y == a.pos.y
    ensures alongX ==> d.pos.x == a.lastPos.x + delta && d.pos.z == a.pos.z
    ensures !alongX ==> d.pos.z == a.lastPos.z + delta && d.pos.x == a.pos.x
    ensures d.(angle := a.angle, pos := a.pos, isSpriteMoving := a.isSpriteMoving, speed := a.speed) == a
  {
    var pos := if alongX then a.pos.(x := a.lastPos.x + delta) else a.pos.(z := a.lastPos.z + delta);
    a.(angle := angle, pos := pos, isSpriteMoving := false, speed := 0)
  }

  /** Whether SET_DIRMODE_OBJ reads a followed-actor byte after giving actor
      `other` the control mode `mode`. The test looks at the new mode of the
      target for kFollow but at the executing actor `self` for kFollow2, so
      when the two differ, the executing actor's own mode decides how many
      bytes the instruction takes. */
  function DirModeObjReadsFollow(cfg: Config, actors: seq<Actor>, self: nat, other: nat, mode: int): (r: bool)
    requires self < |actors| && other < |actors|
    ensures other == self ==> (r <==> mode == cfg.modeFollow || mode == cfg.modeFollow2)
    ensures other != self ==> (r <==> mode == cfg.modeFollow || actors[self].controlMode == cfg.modeFollow2)
  {
    var updated := actors[other := actors[other].(controlMode := mode)];
    mode == cfg.modeFollow || updated[self].controlMode == cfg.modeFollow2
  }

  // ---------------------------------------------------------------------------
  // Model and animation (requests to the animation services)

  ghost predicate BodyStep(env: Env, idx: nat, m: Machine, r: Result<Signal>, m': Machine)
    requires Fits(env, idx, m)
  {
    var s, p := m.s, m.pos;
    && m'.s == m.s
    && (r.Ok? <==> Has(s, p, 1))
    && (r.Ok? ==>
          && r.value == Continue && m'.pos == p + 1
          && m'.w == m.w.(effects := m.w.effects + [InitModel(s[p] as int, idx)]))
  }

  method Body(e: Engine, ctx: Context) returns (r: Result<Signal>)
    requires e.Ready(ctx)
    modifies e, ctx
    ensures Stepped(e, ctx) && BodyStep(e.env, ctx.actorIdx, old(Now(e, ctx)), r, Now(e, ctx))
  {
    var body :- ctx.ReadByte();
    e.effects := e.effects + [InitModel(body as int, ctx.actorIdx)];
    r := Ok(Continue);
  }

  ghost predicate BodyObjStep(env: Env, idx: nat, m: Machine, r: Result<Signal>, m': Machine)
    requires Fits(env, idx, m)
  {
    var s, p := m.s, m.pos;
    && m'.s == m.s
    && (r.Ok? <==> Has(s, p, 2))
    && (r.Ok? ==>
          && r.value == Continue && m'.pos == p + 2
          && m'.w == m.w.(effects := m.w.effects + [InitModel(s[p + 1] as int, s[p] as int)]))
  }

  method BodyObj(e: Engine, ctx: Context) returns (r: Result<Signal>)
    requires e.Ready(ctx)
    modifies e, ctx
    ensures Stepped(e, ctx) && BodyObjStep(e.env, ctx.actorIdx, old(Now(e, ctx)), r, Now(e, ctx))
  {
    var other :- ctx.ReadByte();
    var body :- ctx.ReadByte();
    e.effects := e.effects + [InitModel(body as int, other as int)];
    r := Ok(Continue);
  }

  ghost predicate AnimStep(env: Env, idx: nat, m: Machine, r: Result<Signal>, m': Machine)
    requires Fits(env, idx, m)
  {
    var s, p := m.s, m.pos;
    && m'.s == m.s
    && (r.Ok? <==> Has(s, p, 1))
    && (r.Ok? ==>
          && r.value == Continue && m'.pos == p + 1
          && m'.w == m.w.(effects := m.w.effects + [InitAnim(s[p] as int, idx)]))
  }

  method Anim(e: Engine, ctx: Context) returns (r: Result<Signal>)
    requires e.Ready(ctx)
    modifies e, ctx
    ensures Stepped(e, ctx) && AnimStep(e.env, ctx.actorIdx, old(Now(e, ctx)), r, Now(e, ctx))
  {
    var anim :- ctx.ReadByte();
    e.effects := e.effects + [InitAnim(anim as int, ctx.actorIdx)];
    r := Ok(Continue);
  }

  ghost predicate AnimObjStep(env: Env, idx: nat, m: Machine, r: Result<Signal>, m': Machine)
    requires Fits(env, idx, m)
  {
    var s, p := m.s, m.pos;
    && m'.s == m.s
    && (r.Ok? <==> Has(s, p, 2))
    && (r.Ok? ==>
          && r.value == Continue && m'.pos == p + 2
          && m'.w == m.w.(effects := m.w.effects + [InitAnim(s[p + 1] as int, s[p] as int)]))
  }

  method AnimObj(e: Engine, ctx: Context) returns (r: Result<Signal>)
    requires e.Ready(ctx)
    modifies e, ctx
    ensures Stepped(e, ctx) && AnimObjStep(e.env, ctx.actorIdx, old(Now(e, ctx)), r, Now(e, ctx))
  {
    var other :- ctx.ReadByte();
    var anim :- ctx.ReadByte();
    e.effects := e.effects + [InitAnim(anim as int, other as int)];
    r := Ok(Continue);
  }

  /** ANIM_SET: forget the current animation, then request the new one. */
  ghost predicate AnimSetStep(env: Env, idx: nat, m: Machine, r: Result<Signal>, m': Machine)
    requires Fits(env, idx, m)
  {
    var s, p := m.s, m.pos;
    && m'.s == m.s
    && (r.Ok? <==> Has(s, p, 1))
    && (r.Ok? ==>
          && r.value == Continue && m'.pos == p + 1
          && m'.w == m.w.(
               actors := m.w.actors[idx :=
                 m.w.actors[idx].(anim := env.cfg.animNone, previousAnimIdx := -1)],
               effects := m.w.effects + [InitAnim(s[p] as int, idx)]))
  }

  method AnimSet(e: Engine, ctx: Context) returns (r: Result<Signal>)
    requires e.Ready(ctx)
    modifies e, ctx
    ensures Stepped(e, ctx) && AnimSetStep(e.env, ctx.actorIdx, old(Now(e, ctx)), r, Now(e, ctx))
  {
    var anim :- ctx.ReadByte();
    e.actors := e.actors[ctx.actorIdx := e.actors[ctx.actorIdx].(anim := e.env.cfg.animNone, previousAnimIdx := -1)];
    e.effects := e.effects + [InitAnim(anim as int, ctx.actorIdx)];
    r := Ok(Continue);
  }

  // ---------------------------------------------------------------------------
  // Movement

  /** SET_DIRMODE: set the control mode; a followed-actor byte follows only
      for kFollow. */
  ghost predicate SetDirModeStep(env: Env, idx: nat, m: Machine, r: Result<Signal>, m': Machine)
    requires Fits(env, idx, m)
  {
    var s, p := m.s, m.pos;
    var follow := Has(s, p, 1) && s[p] as int == env.cfg.modeFollow;
    var a := m.w.actors[idx];
    && m'.s == m.s
    && (r.Ok? <==> Has(s, p, if follow then 2 else 1))
    && (r.Ok? ==>
          && r.value == Continue && m'.pos == p + (if follow then 2 else 1)
          && m'.w == m.w.(actors := m.w.actors[idx :=
               a.(controlMode := s[p] as int, followedActor := if follow then s[p + 1] as int else a.followedActor)]))
  }

  method SetDirMode(e: Engine, ctx: Context) returns (r: Result<Signal>)
    requires e.Ready(ctx)
    modifies e, ctx
    ensures Stepped(e, ctx) && SetDirModeStep(e.env, ctx.actorIdx, old(Now(e, ctx)), r, Now(e, ctx))
  {
    var mode :- ctx.ReadByte();
    var followed := e.actors[ctx.actorIdx].followedActor;
    if mode as int == e.env.cfg.modeFollow {
      var b :- ctx.ReadByte();
      followed := b as int;
    }
    e.actors := e.actors[ctx.actorIdx := e.actors[ctx.actorIdx].(controlMode := mode as int, followedActor := followed)];
    r := Ok(Continue);
  }

  /** SET_DIRMODE_OBJ: set another actor's control mode; whether a
      followed-actor byte follows is decided by DirModeObjReadsFollow. */
  ghost predicate SetDirModeObjStep(env: Env, idx: nat, m: Machine, r: Result<Signal>, m': Machine)
    requires Fits(env, idx, m)
  {
    var s, p, actors := m.s, m.pos, m.w.actors;
    var named := Has(s, p, 2) && (s[p] as int) < |actors|;
    var follow := named && DirModeObjReadsFollow(env.cfg, actors, idx, s[p] as int, s[p + 1] as int);
    && m'.s == m.s
    && (r.Ok? <==> named && Has(s, p, if follow then 3 else 2))
    && (r.Ok? ==>
          && r.value == Continue && m'.pos == p + (if follow then 3 else 2)
          && m'.w == m.w.(actors := actors[s[p] as int :=
               actors[s[p]].(controlMode := s[p + 1] as int,
                             followedActor := if follow then s[p + 2] as int else actors[s[p]].followedActor)]))
  }

  method SetDirModeObj(e: Engine, ctx: Context) returns (r: Result<Signal>)
    requires e.Ready(ctx)
    modifies e, ctx
    ensures Stepped(e, ctx) && SetDirModeObjStep(e.env, ctx.actorIdx, old(Now(e, ctx)), r, Now(e, ctx))
  {
    var other :- ctx.ReadByte();
    var mode :- ctx.ReadByte();
    if other as int >= |e.actors| {
      return Err(BadActor(other as int));
    }
    // The mode is stored before the follow test, which may read it back
    // through the executing actor; DirModeObjReadsFollow decides on that.
    var follows := DirModeObjReadsFollow(e.env.cfg, e.actors, ctx.actorIdx, other as int, mode as int);
    var followed := e.actors[other].followedActor;
    if follows {
      var b :- ctx.ReadByte();
      followed := b as int;
    }
    e.actors := e.actors[other as int := e.actors[other].(controlMode := mode as int, followedActor := followed)];
    r := Ok(Continue);
  }

  ghost predicate SetDoorStep(env: Env, idx: nat, angle: int, alongX: bool, sign: int, m: Machine, r: Result<Signal>, m': Machine)
    requires Fits(env, idx, m)
  {
    var s, p := m.s, m.pos;
    && m'.s == m.s
    && (r.Ok? <==> Has(s, p, 2))
    && (r.Ok? ==>
          && r.value == Continue && m'.pos == p + 2
          && m'.w == m.w.(actors := m.w.actors[idx :=
               DoorMoved(m.w.actors[idx], angle, alongX, sign * S16(s, p))]))
  }

  method SetDoor(e: Engine, ctx: Context, angle: int, alongX: bool, sign: int) returns (r: Result<Signal>)
    requires e.Ready(ctx) && sign in {-1, 1}
    modifies e, ctx
    ensures Stepped(e, ctx) && SetDoorStep(e.env, ctx.actorIdx, angle, alongX, sign, old(Now(e, ctx)), r, Now(e, ctx))
  {
    var distance :- ctx.ReadSint16LE();
    e.actors := e.actors[ctx.actorIdx := DoorMoved(e.actors[ctx.actorIdx], angle, alongX, sign * distance)];
    r := Ok(Continue);
  }

  /** SET_DOOR_LEFT: face ANGLE_270 at the last x minus the distance. */
  method SetDoorLeft(e: Engine, ctx: Context) returns (r: Result<Signal>)
    requires e.Ready(ctx)
    modifies e, ctx
    ensures Stepped(e, ctx) && SetDoorStep(e.env, ctx.actorIdx, e.env.cfg.angle270, true, -1, old(Now(e, ctx)), r, Now(e, ctx))
  {
    r := SetDoor(e, ctx, e.env.cfg.angle270, true, -1);
  }

  /** SET_DOOR_RIGHT: face ANGLE_90 at the last x plus the distance. */
  method SetDoorRight(e: Engine, ctx: Context) returns (r: Result<Signal>)
    requires e.Ready(ctx)
    modifies e, ctx
    ensures Stepped(e, ctx) && SetDoorStep(e.env, ctx.actorIdx, e.env.cfg.angle90, true, 1, old(Now(e, ctx)), r, Now(e, ctx))
  {
    r := SetDoor(e, ctx, e.env.cfg.angle90, true, 1);
  }

  /** SET_DOOR_UP: face ANGLE_180 at the last z minus the distance. */
  method SetDoorUp(e: Engine, ctx: Context) returns (r: Result<Signal>)
    requires e.Ready(ctx)
    modifies e, ctx
    ensures Stepped(e, ctx) && SetDoorStep(e.env, ctx.actorIdx, e.env.cfg.angle180, false, -1, old(Now(e, ctx)), r, Now(e, ctx))
  {
    r := SetDoor(e, ctx, e.env.cfg.angle180, false, -1);
  }

  /** SET_DOOR_DOWN: face ANGLE_0 at the last z plus the distance. */
  method SetDoorDown(e: Engine, ctx: Context) returns (r: Result<Signal>)
    requires e.Ready(ctx)
    modifies e, ctx
    ensures Stepped(e, ctx) && SetDoorStep(e.env, ctx.actorIdx, e.env.cfg.angle0, false, 1, old(Now(e, ctx)), r, Now(e, ctx))
  {
    r := SetDoor(e, ctx, e.env.cfg.angle0, false, 1);
  }

  /** BETA: turn the actor to the given angle and reset its rotation. */
  ghost predicate BetaStep(env: Env, idx: nat, m: Machine, r: Result<Signal>, m': Machine)
    requires Fits(env, idx, m)
  {
    var s, p := m.s, m.pos;
    && m'.s == m.s
    && (r.Ok? <==> Has(s, p, 2))
    && (r.Ok? ==>
          && r.value == Continue && m'.pos == p + 2
          && m'.w == m.w.(
               actors := m.w.actors[idx := m.w.actors[idx].(angle := env.toAngle(S16(s, p)))],
               effects := m.w.effects + [ClearRealAngle(idx)]))
  }

  method Beta(e: Engine, ctx: Context) returns (r: Result<Signal>)
    requires e.Ready(ctx)
    modifies e, ctx
    ensures Stepped(e, ctx) && BetaStep(e.env, ctx.actorIdx, old(Now(e, ctx)), r, Now(e, ctx))
  {
    var angle :- ctx.ReadSint16LE();
    e.actors := e.actors[ctx.actorIdx := e.actors[ctx.actorIdx].(angle := e.env.toAngle(angle))];
    e.effects := e.effects + [ClearRealAngle(ctx.actorIdx)];
    r := Ok(Continue);
  }

  /** POS_POINT: put the actor on a scene track point. With enhancements on,
      the hero in the Citadel Island harbour asked for track 8 instead gets
      the instruction rewritten in place into CHANGE_CUBE to the Principal
      Island harbour, and the cursor is put back on it so that it runs next. */
  ghost predicate PosPointStep(env: Env, idx: nat, m: Machine, r: Result<Signal>, m': Machine)
    requires Fits(env, idx, m)
  {
    var s, p := m.s, m.pos;
    var rewrite := Has(s, p, 1) && m.w.scene.enhancements && idx == 0 &&
                   m.w.scene.currentScene == env.cfg.citadelHarbor && s[p] == 8;
    && (r.Ok? <==> Has(s, p, 1) && (rewrite || (s[p] as int) < |m.w.scene.tracks|))
    && (r.Ok? && rewrite ==>
          && r.value == Continue && m'.pos == m.opcodePos
          && m'.s == s[m.opcodePos := CHANGE_CUBE][p := env.cfg.principalHarbor as byte]
          && m'.w == m.w)
    && (r.Ok? && !rewrite ==>
          && r.value == Continue && m'.pos == p + 1 && m'.s == s
          && m'.w == m.w.(actors := m.w.actors[idx :=
               m.w.actors[idx].(pos := m.w.scene.tracks[s[p]])]))
  }

  method PosPoint(e: Engine, ctx: Context) returns (r: Result<Signal>)
    requires e.Ready(ctx)
    modifies e, ctx, ctx.script
    ensures Stepped(e, ctx) && PosPointStep(e.env, ctx.actorIdx, old(Now(e, ctx)), r, Now(e, ctx))
  {
    var track :- ctx.ReadByte();
    if e.scene.enhancements {
      if ctx.actorIdx == 0 && e.scene.currentScene == e.env.cfg.citadelHarbor && track == 8 {
        // rewinding to the opcode offset and writing two bytes there cannot fail
        var _ := ctx.Skip(-2);
        var _ := ctx.WriteByte(CHANGE_CUBE);
        var _ := ctx.WriteByte(e.env.cfg.principalHarbor as byte);
        var _ := ctx.Skip(-2);
        return Ok(Continue);
      }
    }
    if track as int >= |e.scene.tracks| {
      return Err(BadTrack(track as int));
    }
    e.actors := e.actors[ctx.actorIdx := e.actors[ctx.actorIdx].(pos := e.scene.tracks[track])];
    r := Ok(Continue);
  }

  // ---------------------------------------------------------------------------
  // Flags

  /** FALLABLE: the actor can fall iff bit 0 of the operand is set. */
  ghost predicate FallableStep(env: Env, idx: nat, m: Machine, r: Result<Signal>, m': Machine)
    requires Fits(env, idx, m)
  {
    var s, p := m.s, m.pos;
    && m'.s == m.s
    && (r.Ok? <==> Has(s, p, 1))
    && (r.Ok? ==>
          && r.value == Continue && m'.pos == p + 1
          && m'.w == m.w.(actors := m.w.actors[idx :=
               m.w.actors[idx].(canFall := s[p] % 2 == 1)]))
  }

  method Fallable(e: Engine, ctx: Context) returns (r: Result<Signal>)
    requires e.Ready(ctx)
    modifies e, ctx
    ensures Stepped(e, ctx) && FallableStep(e.env, ctx.actorIdx, old(Now(e, ctx)), r, Now(e, ctx))
  {
    var flag :- ctx.ReadByte();
    e.actors := e.actors[ctx.actorIdx := e.actors[ctx.actorIdx].(canFall := flag % 2 == 1)];
    r := Ok(Continue);
  }

  /** OBJ_COL: collisions with other actors are computed iff the operand is
      not 0. */
  ghost predicate ObjColStep(env: Env, idx: nat, m: Machine, r: Result<Signal>, m': Machine)
    requires Fits(env, idx, m)
  {
    var s, p := m.s, m.pos;
    && m'.s == m.s
    && (r.Ok? <==> Has(s, p, 1))
    && (r.Ok? ==>
          && r.value == Continue && m'.pos == p + 1
          && m'.w == m.w.(actors := m.w.actors[idx :=
               m.w.actors[idx].(collidesWithObjects := s[p] != 0)]))
  }

  method ObjCol(e: Engine, ctx: Context) returns (r: Result<Signal>)
    requires e.Ready(ctx)
    modifies e, ctx
    ensures Stepped(e, ctx) && ObjColStep(e.env, ctx.actorIdx, old(Now(e, ctx)), r, Now(e, ctx))
  {
    var collision :- ctx.ReadByte();
    if collision != 0 {
      e.actors := e.actors[ctx.actorIdx := e.actors[ctx.actorIdx].(collidesWithObjects := true)];
    } else {
      e.actors := e.actors[ctx.actorIdx := e.actors[ctx.actorIdx].(collidesWithObjects := false)];
    }
    r := Ok(Continue);
  }

  /** BRICK_COL: the brick and low-collision flags as BrickCollision says. */
  ghost predicate BrickColStep(env: Env, idx: nat, m: Machine, r: Result<Signal>, m': Machine)
    requires Fits(env, idx, m)
  {
    var s, p := m.s, m.pos;
    && m'.s == m.s
    && (r.Ok? <==> Has(s, p, 1))
    && (r.Ok? ==>
          && r.value == Continue && m'.pos == p + 1
          && m'.w == m.w.(actors := m.w.actors[idx :=
               m.w.actors[idx].(collidesWithBricks := BrickCollision(s[p] as int).0,
                                            lowCollision := BrickCollision(s[p] as int).1)]))
  }

  method BrickCol(e: Engine, ctx: Context) returns (r: Result<Signal>)
    requires e.Ready(ctx)
    modifies e, ctx
    ensures Stepped(e, ctx) && BrickColStep(e.env, ctx.actorIdx, old(Now(e, ctx)), r, Now(e, ctx))
  {
    var collision :- ctx.ReadByte();
    var bricks, low := false, false;
    if collision == 1 {
      bricks := true;
    } else if collision == 2 {
      bricks, low := true, true;
    }
    e.actors := e.actors[ctx.actorIdx := e.actors[ctx.actorIdx].(collidesWithBricks := bricks, lowCollision := low)];
    r := Ok(Continue);
  }

  /** INVISIBLE: store the operand as the actor's hidden flag. */
  ghost predicate InvisibleStep(env: Env, idx: nat, m: Machine, r: Result<Signal>, m': Machine)
    requires Fits(env, idx, m)
  {
    var s, p := m.s, m.pos;
    && m'.s == m.s
    && (r.Ok? <==> Has(s, p, 1))
    && (r.Ok? ==>
          && r.value == Continue && m'.pos == p + 1
          && m'.w == m.w.(actors := m.w.actors[idx :=
               m.w.actors[idx].(hidden := s[p] as int)]))
  }

  method Invisible(e: Engine, ctx: Context) returns (r: Result<Signal>)
    requires e.Ready(ctx)
    modifies e, ctx
    ensures Stepped(e, ctx) && InvisibleStep(e.env, ctx.actorIdx, old(Now(e, ctx)), r, Now(e, ctx))
  {
    var hidden :- ctx.ReadByte();
    e.actors := e.actors[ctx.actorIdx := e.actors[ctx.actorIdx].(hidden := hidden as int)];
    r := Ok(Continue);
  }

  /** GIVE_BONUS: an actor carrying any bonus drops it; a non-zero operand
      marks the bonus as given. */
  ghost predicate GiveBonusStep(env: Env, idx: nat, m: Machine, r: Result<Signal>, m': Machine)
    requires Fits(env, idx, m)
  {
    var s, p, a := m.s, m.pos, m.w.actors[idx];
    && m'.s == m.s
    && (r.Ok? <==> Has(s, p, 1))
    && (r.Ok? ==>
          && r.value == Continue && m'.pos == p + 1
          && m'.w == m.w.(
               actors := m.w.actors[idx := a.(bonus := Marked(a.bonus, s[p]))],
               effects := m.w.effects + Drops(a.bonus, idx)))
  }

  /** The bonus with the GIVE_BONUS flag folded in: a non-zero flag sets it,
      a zero flag leaves it as it was. */
  function Marked(b: Bonus, flag: byte): (b': Bonus)
    ensures b'.(unk1 := b.unk1) == b
    ensures b'.unk1 <==> b.unk1 || flag != 0
  {
    b.(unk1 := b.unk1 || flag != 0)
  }

  /** The extra-bonus drop GIVE_BONUS asks for: one when the actor carries a
      bonus, none otherwise. */
  function Drops(b: Bonus, idx: nat): (d: seq<Effect>)
    ensures d == [] <==> !CarriesBonus(b)
    ensures d != [] ==> d == [ExtraBonus(idx)]
  {
    if CarriesBonus(b) then [ExtraBonus(idx)] else []
  }

  method GiveBonus(e: Engine, ctx: Context) returns (r: Result<Signal>)
    requires e.Ready(ctx)
    modifies e, ctx
    ensures Stepped(e, ctx) && GiveBonusStep(e.env, ctx.actorIdx, old(Now(e, ctx)), r, Now(e, ctx))
  {
    var flag :- ctx.ReadByte();
    var a := e.actors[ctx.actorIdx];
    e.effects := e.effects + Drops(a.bonus, ctx.actorIdx);
    e.actors := e.actors[ctx.actorIdx := a.(bonus := Marked(a.bonus, flag))];
    r := Ok(Continue);
  }

  // ---------------------------------------------------------------------------
  // Life and death

  /** KILL_OBJ: the named actor drops what it carries and is killed. */
  ghost predicate KillObjStep(env: Env, idx: nat, m: Machine, r: Result<Signal>, m': Machine)
    requires Fits(env, idx, m)
  {
    var s, p := m.s, m.pos;
    && m'.s == m.s
    && (r.Ok? <==> Has(s, p, 1) && (s[p] as int) < |m.w.actors|)
    && (r.Ok? ==>
          && r.value == Continue && m'.pos == p + 1
          && m'.w == m.w.(
               actors := m.w.actors[s[p] as int := Killed(m.w.actors[s[p]])],
               effects := m.w.effects + [ProcessCarrier(s[p] as int)]))
  }

  method KillObj(e: Engine, ctx: Context) returns (r: Result<Signal>)
    requires e.Ready(ctx)
    modifies e, ctx
    ensures Stepped(e, ctx) && KillObjStep(e.env, ctx.actorIdx, old(Now(e, ctx)), r, Now(e, ctx))
  {
    var other :- ctx.ReadByte();
    if other as int >= |e.actors| {
      return Err(BadActor(other as int));
    }
    e.effects := e.effects + [ProcessCarrier(other as int)];
    e.actors := e.actors[other as int := Killed(e.actors[other])];
    r := Ok(Continue);
  }

  /** SUICIDE: the executing actor drops what it carries and is killed. */
  ghost predicate SuicideStep(env: Env, idx: nat, m: Machine, r: Result<Signal>, m': Machine)
    requires Fits(env, idx, m)
  {
    && m'.s == m.s
    && r == Ok(Continue) && m'.pos == m.pos
    && m'.w == m.w.(
         actors := m.w.actors[idx := Killed(m.w.actors[idx])],
         effects := m.w.effects + [ProcessCarrier(idx)])
  }

  method Suicide(e: Engine, ctx: Context) returns (r: Result<Signal>)
    requires e.Ready(ctx)
    modifies e
    ensures Stepped(e, ctx) && SuicideStep(e.env, ctx.actorIdx, old(Now(e, ctx)), r, Now(e, ctx))
  {
    e.effects := e.effects + [ProcessCarrier(ctx.actorIdx)];
    e.actors := e.actors[ctx.actorIdx := Killed(e.actors[ctx.actorIdx])];
    r := Ok(Continue);
  }

  /** INIT_PINGOUIN: the named actor becomes the mecha-penguin, dormant until
      used: dead, with no entity and no zone; its life is left alone. */
  ghost predicate InitPingouinStep(env: Env, idx: nat, m: Machine, r: Result<Signal>, m': Machine)
    requires Fits(env, idx, m)
  {
    var s, p := m.s, m.pos;
    && m'.s == m.s
    && (r.Ok? <==> Has(s, p, 1) && (s[p] as int) < |m.w.actors|)
    && (r.Ok? ==>
          && r.value == Continue && m'.pos == p + 1
          && m'.w == m.w.(
               scene := m.w.scene.(mecaPenguin := s[p] as int),
               actors := m.w.actors[s[p] as int := m.w.actors[s[p]].(isDead := true, entity := -1, zone := -1)]))
  }

  method InitPingouin(e: Engine, ctx: Context) returns (r: Result<Signal>)
    requires e.Ready(ctx)
    modifies e, ctx
    ensures Stepped(e, ctx) && InitPingouinStep(e.env, ctx.actorIdx, old(Now(e, ctx)), r, Now(e, ctx))
  {
    var penguin :- ctx.ReadByte();
    if penguin as int >= |e.actors| {
      return Err(BadActor(penguin as int));
    }
    e.scene := e.scene.(mecaPenguin := penguin as int);
    e.actors := e.actors[penguin as int := e.actors[penguin].(isDead := true, entity := -1, zone := -1)];
    r := Ok(Continue);
  }

  /** SET_LIFE_POINT_OBJ: set the named actor's life points. */
  ghost predicate SetLifePointObjStep(env: Env, idx: nat, m: Machine, r: Result<Signal>, m': Machine)
    requires Fits(env, idx, m)
  {
    var s, p := m.s, m.pos;
    && m'.s == m.s
    && (r.Ok? <==> Has(s, p, 2) && (s[p] as int) < |m.w.actors|)
    && (r.Ok? ==>
          && r.value == Continue && m'.pos == p + 2
          && m'.w == m.w.(actors := m.w.actors[s[p] as int :=
               m.w.actors[s[p]].(life := s[p + 1] as int)]))
  }

  method SetLifePointObj(e: Engine, ctx: Context) returns (r: Result<Signal>)
    requires e.Ready(ctx)
    modifies e, ctx
    ensures Stepped(e, ctx) && SetLifePointObjStep(e.env, ctx.actorIdx, old(Now(e, ctx)), r, Now(e, ctx))
  {
    var other :- ctx.ReadByte();
    var life :- ctx.ReadByte();
    if other as int >= |e.actors| {
      return Err(BadActor(other as int));
    }
    e.actors := e.actors[other as int := e.actors[other].(life := life as int)];
    r := Ok(Continue);
  }

  /** SUB_LIFE_POINT_OBJ: take life points from the named actor, never below 0. */
  ghost predicate SubLifePointObjStep(env: Env, idx: nat, m: Machine, r: Result<Signal>, m': Machine)
    requires Fits(env, idx, m)
  {
    var s, p := m.s, m.pos;
    && m'.s == m.s
    && (r.Ok? <==> Has(s, p, 2) && (s[p] as int) < |m.w.actors|)
    && (r.Ok? ==>
          && r.value == Continue && m'.pos == p + 2
          && m'.w == m.w.(actors := m.w.actors[s[p] as int :=
               m.w.actors[s[p]].(life := LifeAfterLoss(m.w.actors[s[p]].life, s[p + 1] as int))]))
    && (r.Ok? ==> m'.w.actors[m.s[m.pos]].life >= 0)
  }

  method SubLifePointObj(e: Engine, ctx: Context) returns (r: Result<Signal>)
    requires e.Ready(ctx)
    modifies e, ctx
    ensures Stepped(e, ctx) && SubLifePointObjStep(e.env, ctx.actorIdx, old(Now(e, ctx)), r, Now(e, ctx))
  {
    var other :- ctx.ReadByte();
    var points :- ctx.ReadByte();
    if other as int >= |e.actors| {
      return Err(BadActor(other as int));
    }
    var life := e.actors[other].life - points as int;
    if life < 0 {
      life := 0;
    }
    e.actors := e.actors[other as int := e.actors[other].(life := life)];
    r := Ok(Continue);
  }

  /** HIT_OBJ: the executing actor hits the named one, at the target's angle. */
  ghost predicate HitObjStep(env: Env, idx: nat, m: Machine, r: Result<Signal>, m': Machine)
    requires Fits(env, idx, m)
  {
    var s, p := m.s, m.pos;
    && m'.s == m.s
    && (r.Ok? <==> Has(s, p, 2) && (s[p] as int) < |m.w.actors|)
    && (r.Ok? ==>
          && r.value == Continue && m'.pos == p + 2
          && m'.w == m.w.(effects := m.w.effects +
               [Hit(idx, s[p] as int, s[p + 1] as int, m.w.actors[s[p]].angle)]))
  }

  method HitObj(e: Engine, ctx: Context) returns (r: Result<Signal>)
    requires e.Ready(ctx)
    modifies e, ctx
    ensures Stepped(e, ctx) && HitObjStep(e.env, ctx.actorIdx, old(Now(e, ctx)), r, Now(e, ctx))
  {
    var other :- ctx.ReadByte();
    var strength :- ctx.ReadByte();
    if other as int >= |e.actors| {
      return Err(BadActor(other as int));
    }
    e.effects := e.effects + [Hit(ctx.actorIdx, other as int, strength as int, e.actors[other].angle)];
    r := Ok(Continue);
  }

  /** EXPLODE_OBJ: an explosion at the named actor's position. */
  ghost predicate ExplodeObjStep(env: Env, idx: nat, m: Machine, r: Result<Signal>, m': Machine)
    requires Fits(env, idx, m)
  {
    var s, p := m.s, m.pos;
    && m'.s == m.s
    && (r.Ok? <==> Has(s, p, 1) && (s[p] as int) < |m.w.actors|)
    && (r.Ok? ==>
          && r.value == Continue && m'.pos == p + 1
          && m'.w == m.w.(effects := m.w.effects + [Explode(m.w.actors[s[p]].pos)]))
  }

  method ExplodeObj(e: Engine, ctx: Context) returns (r: Result<Signal>)
    requires e.Ready(ctx)
    modifies e, ctx
    ensures Stepped(e, ctx) && ExplodeObjStep(e.env, ctx.actorIdx, old(Now(e, ctx)), r, Now(e, ctx))
  {
    var other :- ctx.ReadByte();
    if other as int >= |e.actors| {
      return Err(BadActor(other as int));
    }
    e.effects := e.effects + [Explode(e.actors[other].pos)];
    r := Ok(Continue);
  }
}
