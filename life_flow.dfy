/** Control-flow opcodes of the life script: the conditional branches with
    their self-rewriting variants, the unconditional jumps, the no-ops, the
    handlers that move an actor's life or track cursor, and the handlers that
    end a run. */
module LifeFlow {
  import opened Bytes
  import opened LifeTypes
  import opened LifeEngine

  /** A handler left the engine bound to the context and the opcode offset
      where it was. */
  twostate predicate Stepped(e: Engine, ctx: Context)
    reads e, ctx
  {
    e.Bound(ctx) && ctx.opcodePos == old(ctx.opcodePos)
  }

  /** Where a conditional instruction continues once its test has been read
      up to the offset at `q`: IF, SWIF and ONEIF fall through when the test
      holds and jump when it fails; OR_IF has the opposite polarity; SNIF and
      NEVERIF jump whatever the outcome. */
  function Branch(op: byte, holds: bool, s: seq<byte>, q: int): (r: Result<int>)
    requires op in {IF, SWIF, ONEIF, OR_IF, SNIF, NEVERIF}
    ensures op in {IF, SWIF, ONEIF} ==> r == if holds then Fall(s, q) else Jump(s, q)
    ensures op == OR_IF ==> r == Branch(IF, !holds, s, q)
    ensures op in {SNIF, NEVERIF} ==> r == Jump(s, q)
  {
    if op == SNIF || op == NEVERIF then Jump(s, q)
    else if (op == OR_IF) != holds then Fall(s, q)
    else Jump(s, q)
  }

  /** The step every conditional handler takes: it fails exactly when the
      test or its continuation cannot be read; otherwise the world is the one
      the test leaves, the cursor is where Branch says, and the buffer differs
      at most in the instruction's own opcode byte, as SelfRewrite says. */
  ghost predicate ConditionalStep(env: Env, idx: nat, op: byte, m: Machine, r: Result<Signal>, m': Machine)
    requires Fits(env, idx, m) && op in {IF, SWIF, ONEIF, OR_IF, SNIF, NEVERIF}
  {
    var t := Test(env, m.w, idx, m.s, m.pos);
    && (r.Ok? <==> t.Ok? && Branch(op, t.value.0, m.s, t.value.1).Ok?)
    && (r.Ok? ==>
          && r.value == Continue
          && m'.pos == Branch(op, t.value.0, m.s, t.value.1).value
          && m'.w == t.value.2
          && m'.s == m.s[m.opcodePos := SelfRewrite(op, t.value.0)])
  }

  // ---------------------------------------------------------------------------
  // Conditional branches

  method If(e: Engine, ctx: Context) returns (r: Result<Signal>)
    requires e.Ready(ctx) && Executing(ctx, IF)
    modifies e, ctx
    ensures Stepped(e, ctx) && ConditionalStep(e.env, ctx.actorIdx, IF, old(Now(e, ctx)), r, Now(e, ctx))
  {
    var holds :- EvaluateTest(e, ctx);
    if !holds {
      var _ :- ctx.JumpToOffset();
    } else {
      var _ :- ctx.Skip(2);
    }
    r := Ok(Continue);
  }

  method OrIf(e: Engine, ctx: Context) returns (r: Result<Signal>)
    requires e.Ready(ctx) && Executing(ctx, OR_IF)
    modifies e, ctx
    ensures Stepped(e, ctx) && ConditionalStep(e.env, ctx.actorIdx, OR_IF, old(Now(e, ctx)), r, Now(e, ctx))
  {
    var holds :- EvaluateTest(e, ctx);
    if holds {
      var _ :- ctx.JumpToOffset();
    } else {
      var _ :- ctx.Skip(2);
    }
    r := Ok(Continue);
  }

  /** SWIF: an IF that turns itself into SNIF once its test holds. */
  method Swif(e: Engine, ctx: Context) returns (r: Result<Signal>)
    requires e.Ready(ctx) && Executing(ctx, SWIF)
    modifies e, ctx, ctx.script
    ensures Stepped(e, ctx) && ConditionalStep(e.env, ctx.actorIdx, SWIF, old(Now(e, ctx)), r, Now(e, ctx))
  {
    var holds :- EvaluateTest(e, ctx);
    if !holds {
      var _ :- ctx.JumpToOffset();
    } else {
      var _ :- ctx.Skip(2);
      ctx.SetOpcode(SNIF);
    }
    r := Ok(Continue);
  }

  /** ONEIF: an IF that turns itself into NEVERIF once its test holds. */
  method OneIf(e: Engine, ctx: Context) returns (r: Result<Signal>)
    requires e.Ready(ctx) && Executing(ctx, ONEIF)
    modifies e, ctx, ctx.script
    ensures Stepped(e, ctx) && ConditionalStep(e.env, ctx.actorIdx, ONEIF, old(Now(e, ctx)), r, Now(e, ctx))
  {
    var holds :- EvaluateTest(e, ctx);
    if !holds {
      var _ :- ctx.JumpToOffset();
    } else {
      var _ :- ctx.Skip(2);
      ctx.SetOpcode(NEVERIF);
    }
    r := Ok(Continue);
  }

  /** SNIF: always jumps, and turns itself back into SWIF when its test fails. */
  method Snif(e: Engine, ctx: Context) returns (r: Result<Signal>)
    requires e.Ready(ctx) && Executing(ctx, SNIF)
    modifies e, ctx, ctx.script
    ensures Stepped(e, ctx) && ConditionalStep(e.env, ctx.actorIdx, SNIF, old(Now(e, ctx)), r, Now(e, ctx))
  {
    ghost var s := ctx.script[..];
    var holds :- EvaluateTest(e, ctx);
    if !holds {
      ctx.SetOpcode(SWIF);
    }
    assert Jump(ctx.script[..], ctx.pos) == Jump(s, ctx.pos) by {
      assert ctx.script[..][ctx.pos..] == s[ctx.pos..];
    }
    var _ :- ctx.JumpToOffset();
    r := Ok(Continue);
  }

  /** NEVERIF: evaluates its test for its side effects, then always jumps. */
  method NeverIf(e: Engine, ctx: Context) returns (r: Result<Signal>)
    requires e.Ready(ctx) && Executing(ctx, NEVERIF)
    modifies e, ctx
    ensures Stepped(e, ctx) && ConditionalStep(e.env, ctx.actorIdx, NEVERIF, old(Now(e, ctx)), r, Now(e, ctx))
  {
    var _ :- EvaluateTest(e, ctx);
    var _ :- ctx.JumpToOffset();
    r := Ok(Continue);
  }

  // ---------------------------------------------------------------------------
  // Unconditional jumps and no-ops

  /** OFFSET and ELSE: jump to the absolute offset that follows. */
  ghost predicate OffsetStep(env: Env, idx: nat, m: Machine, r: Result<Signal>, m': Machine)
    requires Fits(env, idx, m)
  {
    var j := Jump(m.s, m.pos);
    && m'.s == m.s && m'.w == m.w
    && (r.Ok? <==> j.Ok?)
    && (r.Ok? ==> r.value == Continue && m'.pos == j.value)
  }

  method Offset(e: Engine, ctx: Context) returns (r: Result<Signal>)
    requires e.Ready(ctx)
    modifies ctx
    ensures Stepped(e, ctx) && OffsetStep(e.env, ctx.actorIdx, old(Now(e, ctx)), r, Now(e, ctx))
  {
    var _ :- ctx.JumpToOffset();
    r := Ok(Continue);
  }

  method Else(e: Engine, ctx: Context) returns (r: Result<Signal>)
    requires e.Ready(ctx)
    modifies ctx
    ensures Stepped(e, ctx) && OffsetStep(e.env, ctx.actorIdx, old(Now(e, ctx)), r, Now(e, ctx))
  {
    var _ :- ctx.JumpToOffset();
    r := Ok(Continue);
  }

  /** NOP, LABEL and COMPORTEMENT: step over their one operand byte. */
  ghost predicate SkipOneStep(env: Env, idx: nat, m: Machine, r: Result<Signal>, m': Machine)
    requires Fits(env, idx, m)
  {
    && m'.s == m.s && m'.w == m.w
    && (r.Ok? <==> m.pos + 1 <= |m.s|)
    && (r.Ok? ==> r.value == Continue && m'.pos == m.pos + 1)
  }

  method SkipOne(e: Engine, ctx: Context) returns (r: Result<Signal>)
    requires e.Ready(ctx)
    modifies ctx
    ensures Stepped(e, ctx) && SkipOneStep(e.env, ctx.actorIdx, old(Now(e, ctx)), r, Now(e, ctx))
  {
    var _ :- ctx.Skip(1);
    r := Ok(Continue);
  }

  /** The unused slots, ENDIF and NO_IF: do nothing and go on. */
  ghost predicate EmptyStep(env: Env, idx: nat, m: Machine, r: Result<Signal>, m': Machine)
    requires Fits(env, idx, m)
  {
    r == Ok(Continue) && m' == m
  }

  method Empty(e: Engine, ctx: Context) returns (r: Result<Signal>)
    requires e.Ready(ctx)
    ensures Stepped(e, ctx) && EmptyStep(e.env, ctx.actorIdx, old(Now(e, ctx)), r, Now(e, ctx))
  {
    r := Ok(Continue);
  }

  // ---------------------------------------------------------------------------
  // Terminators

  /** END and END_LIFE: halt the actor's life script and end the run. */
  ghost predicate EndLifeStep(env: Env, idx: nat, m: Machine, r: Result<Signal>, m': Machine)
    requires Fits(env, idx, m)
  {
    && m'.s == m.s
    && r == Ok(Break) && m'.pos == m.pos
    && m'.w == m.w.(actors := m.w.actors[idx :=
         m.w.actors[idx].(positionInLifeScript := -1)])
  }

  method EndLife(e: Engine, ctx: Context) returns (r: Result<Signal>)
    requires e.Ready(ctx)
    modifies e
    ensures Stepped(e, ctx) && EndLifeStep(e.env, ctx.actorIdx, old(Now(e, ctx)), r, Now(e, ctx))
  {
    e.actors := e.actors[ctx.actorIdx := e.actors[ctx.actorIdx].(positionInLifeScript := -1)];
    r := Ok(Break);
  }

  /** RETURN and END_COMPORTEMENT: end the run, leaving everything as it is. */
  ghost predicate ReturnStep(env: Env, idx: nat, m: Machine, r: Result<Signal>, m': Machine)
    requires Fits(env, idx, m)
  {
    r == Ok(Break) && m' == m
  }

  method Return(e: Engine, ctx: Context) returns (r: Result<Signal>)
    requires e.Ready(ctx)
    ensures Stepped(e, ctx) && ReturnStep(e.env, ctx.actorIdx, old(Now(e, ctx)), r, Now(e, ctx))
  {
    r := Ok(Break);
  }

  /** GAME_OVER: the hero's animation is marked ended, the hero's life drops
      to 0 and the clover leaves are cleared. */
  ghost predicate GameOverStep(env: Env, idx: nat, m: Machine, r: Result<Signal>, m': Machine)
    requires Fits(env, idx, m)
  {
    && m'.s == m.s
    && r == Ok(Break) && m'.pos == m.pos
    && m'.w == m.w.(
         actors := m.w.actors[0 := m.w.actors[0].(animEnded := true, life := 0)],
         effects := m.w.effects + [SetLeafs(0)])
  }

  method GameOver(e: Engine, ctx: Context) returns (r: Result<Signal>)
    requires e.Ready(ctx)
    modifies e
    ensures Stepped(e, ctx) && GameOverStep(e.env, ctx.actorIdx, old(Now(e, ctx)), r, Now(e, ctx))
  {
    e.actors := e.actors[0 := e.actors[0].(animEnded := true, life := 0)];
    e.effects := e.effects + [SetLeafs(0)];
    r := Ok(Break);
  }

  /** THE_END: the scene loop finishes in the final battle scene with the hero
      restored (full life, previous behaviour and angle, 80 magic points, no
      clover leaves), and the game is saved. */
  ghost predicate TheEndStep(env: Env, idx: nat, m: Machine, r: Result<Signal>, m': Machine)
    requires Fits(env, idx, m)
  {
    && m'.s == m.s
    && r == Ok(Break) && m'.pos == m.pos
    && m'.w == m.w.(
         loopState := LoopFinished,
         actors := m.w.actors[0 := m.w.actors[0].(life := env.cfg.actorMaxLife,
                                                        angle := m.w.previousHeroAngle)],
         scene := m.w.scene.(currentScene := env.cfg.finalBattle, newHeroPosX := -1),
         heroBehaviour := m.w.previousHeroBehaviour,
         effects := m.w.effects + [SetLeafs(0), SetMagicPoints(80), AutoSave])
  }

  method TheEnd(e: Engine, ctx: Context) returns (r: Result<Signal>)
    requires e.Ready(ctx)
    modifies e
    ensures Stepped(e, ctx) && TheEndStep(e.env, ctx.actorIdx, old(Now(e, ctx)), r, Now(e, ctx))
  {
    e.loopState := LoopFinished;
    var hero := e.actors[0];
    e.actors := e.actors[0 := hero.(life := e.env.cfg.actorMaxLife, angle := e.previousHeroAngle)];
    e.scene := e.scene.(currentScene := e.env.cfg.finalBattle, newHeroPosX := -1);
    e.heroBehaviour := e.previousHeroBehaviour;
    e.effects := e.effects + [SetLeafs(0), SetMagicPoints(80), AutoSave];
    r := Ok(Break);
  }

  /** BRUTAL_EXIT: the scene loop returns to the menu. */
  ghost predicate BrutalExitStep(env: Env, idx: nat, m: Machine, r: Result<Signal>, m': Machine)
    requires Fits(env, idx, m)
  {
    && m'.s == m.s
    && r == Ok(Break) && m'.pos == m.pos
    && m'.w == m.w.(loopState := LoopReturnToMenu)
  }

  method BrutalExit(e: Engine, ctx: Context) returns (r: Result<Signal>)
    requires e.Ready(ctx)
    modifies e
    ensures Stepped(e, ctx) && BrutalExitStep(e.env, ctx.actorIdx, old(Now(e, ctx)), r, Now(e, ctx))
  {
    e.loopState := LoopReturnToMenu;
    r := Ok(Break);
  }

  // ---------------------------------------------------------------------------
  // Life and track cursors

  /** SET_LIFE and SET_COMPORTEMENT: store the offset that follows as the
      actor's life-script cursor; the running pass itself goes on reading
      after the operand. */
  ghost predicate SetLifeStep(env: Env, idx: nat, m: Machine, r: Result<Signal>, m': Machine)
    requires Fits(env, idx, m)
  {
    var s, p := m.s, m.pos;
    && m'.s == m.s
    && (r.Ok? <==> Has(s, p, 2))
    && (r.Ok? ==>
          && r.value == Continue && m'.pos == p + 2
          && m'.w == m.w.(actors := m.w.actors[idx :=
            m.w.actors[idx].(positionInLifeScript := S16(s, p))]))
  }

  method SetLife(e: Engine, ctx: Context) returns (r: Result<Signal>)
    requires e.Ready(ctx)
    modifies e, ctx
    ensures Stepped(e, ctx) && SetLifeStep(e.env, ctx.actorIdx, old(Now(e, ctx)), r, Now(e, ctx))
  {
    var offset :- ctx.ReadSint16LE();
    e.actors := e.actors[ctx.actorIdx := e.actors[ctx.actorIdx].(positionInLifeScript := offset)];
    r := Ok(Continue);
  }

  /** SET_LIFE_OBJ and SET_COMPORTEMENT_OBJ: the same for the actor named by
      the first operand. */
  ghost predicate SetLifeObjStep(env: Env, idx: nat, m: Machine, r: Result<Signal>, m': Machine)
    requires Fits(env, idx, m)
  {
    var s, p := m.s, m.pos;
    && m'.s == m.s
    && (r.Ok? <==> Has(s, p, 3) && (s[p] as int) < |m.w.actors|)
    && (r.Ok? ==>
          && r.value == Continue && m'.pos == p + 3
          && m'.w == m.w.(actors := m.w.actors[s[p] as int :=
            m.w.actors[s[p]].(positionInLifeScript := S16(s, p + 1))]))
  }

  method SetLifeObj(e: Engine, ctx: Context) returns (r: Result<Signal>)
    requires e.Ready(ctx)
    modifies e, ctx
    ensures Stepped(e, ctx) && SetLifeObjStep(e.env, ctx.actorIdx, old(Now(e, ctx)), r, Now(e, ctx))
  {
    var other :- ctx.ReadByte();
    var offset :- ctx.ReadSint16LE();
    if other as int >= |e.actors| {
      return Err(BadActor(other as int));
    }
    e.actors := e.actors[other as int := e.actors[other].(positionInLifeScript := offset)];
    r := Ok(Continue);
  }

  /** SET_TRACK: store the offset that follows as the actor's track cursor. */
  ghost predicate SetTrackStep(env: Env, idx: nat, m: Machine, r: Result<Signal>, m': Machine)
    requires Fits(env, idx, m)
  {
    var s, p := m.s, m.pos;
    && m'.s == m.s
    && (r.Ok? <==> Has(s, p, 2))
    && (r.Ok? ==>
          && r.value == Continue && m'.pos == p + 2
          && m'.w == m.w.(actors := m.w.actors[idx :=
            m.w.actors[idx].(positionInMoveScript := S16(s, p))]))
  }

  method SetTrack(e: Engine, ctx: Context) returns (r: Result<Signal>)
    requires e.Ready(ctx)
    modifies e, ctx
    ensures Stepped(e, ctx) && SetTrackStep(e.env, ctx.actorIdx, old(Now(e, ctx)), r, Now(e, ctx))
  {
    var offset :- ctx.ReadSint16LE();
    e.actors := e.actors[ctx.actorIdx := e.actors[ctx.actorIdx].(positionInMoveScript := offset)];
    r := Ok(Continue);
  }

  /** SET_TRACK_OBJ: the same for the actor named by the first operand. */
  ghost predicate SetTrackObjStep(env: Env, idx: nat, m: Machine, r: Result<Signal>, m': Machine)
    requires Fits(env, idx, m)
  {
    var s, p := m.s, m.pos;
    && m'.s == m.s
    && (r.Ok? <==> Has(s, p, 3) && (s[p] as int) < |m.w.actors|)
    && (r.Ok? ==>
          && r.value == Continue && m'.pos == p + 3
          && m'.w == m.w.(actors := m.w.actors[s[p] as int :=
            m.w.actors[s[p]].(positionInMoveScript := S16(s, p + 1))]))
  }

  method SetTrackObj(e: Engine, ctx: Context) returns (r: Result<Signal>)
    requires e.Ready(ctx)
    modifies e, ctx
    ensures Stepped(e, ctx) && SetTrackObjStep(e.env, ctx.actorIdx, old(Now(e, ctx)), r, Now(e, ctx))
  {
    var other :- ctx.ReadByte();
    var offset :- ctx.ReadSint16LE();
    if other as int >= |e.actors| {
      return Err(BadActor(other as int));
    }
    e.actors := e.actors[other as int := e.actors[other].(positionInMoveScript := offset)];
    r := Ok(Continue);
  }

  /** STOP_L_TRACK: remember the current label as the paused track position
      and stop the track script. */
  ghost predicate StopLTrackStep(env: Env, idx: nat, m: Machine, r: Result<Signal>, m': Machine)
    requires Fits(env, idx, m)
  {
    var a := m.w.actors[idx];
    && m'.s == m.s
    && r == Ok(Continue) && m'.pos == m.pos
    && m'.w == m.w.(actors := m.w.actors[idx :=
      a.(pausedTrackPtr := a.currentLabelPtr, positionInMoveScript := -1)])
  }

  method StopLTrack(e: Engine, ctx: Context) returns (r: Result<Signal>)
    requires e.Ready(ctx)
    modifies e
    ensures Stepped(e, ctx) && StopLTrackStep(e.env, ctx.actorIdx, old(Now(e, ctx)), r, Now(e, ctx))
  {
    var a := e.actors[ctx.actorIdx];
    e.actors := e.actors[ctx.actorIdx := a.(pausedTrackPtr := a.currentLabelPtr, positionInMoveScript := -1)];
    r := Ok(Continue);
  }

  /** RESTORE_L_TRACK: resume the track script at the paused position. */
  ghost predicate RestoreLTrackStep(env: Env, idx: nat, m: Machine, r: Result<Signal>, m': Machine)
    requires Fits(env, idx, m)
  {
    var a := m.w.actors[idx];
    && m'.s == m.s
    && r == Ok(Continue) && m'.pos == m.pos
    && m'.w == m.w.(actors := m.w.actors[idx :=
      a.(positionInMoveScript := a.pausedTrackPtr)])
  }

  method RestoreLTrack(e: Engine, ctx: Context) returns (r: Result<Signal>)
    requires e.Ready(ctx)
    modifies e
    ensures Stepped(e, ctx) && RestoreLTrackStep(e.env, ctx.actorIdx, old(Now(e, ctx)), r, Now(e, ctx))
  {
    var a := e.actors[ctx.actorIdx];
    e.actors := e.actors[ctx.actorIdx := a.(positionInMoveScript := a.pausedTrackPtr)];
    r := Ok(Continue);
  }
}
