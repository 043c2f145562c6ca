/** The life-script interpreter proper: the opcode table and the loop that
    runs one actor's script from its life cursor until an instruction ends
    the run. */
module LifeInterp {
  import opened Bytes
  import opened LifeTypes
  import opened LifeEngine
  import LifeFlow
  import LifeActors
  import LifeWorld

  /** The opcode table, entry by entry: the step the entry for `op` takes
      from `m` is the step predicate of the handler the table names for it.
      Opcodes past the end of the table have no entry. The table is written
      in slices of four entries, one per dispatch slice below. */
  ghost predicate Performs(env: Env, idx: nat, op: byte, m: Machine, r: Result<Signal>, m': Machine)
    requires Fits(env, idx, m)
  {
    if op < 0x04 then Entries00(env, idx, op, m, r, m')
    else if op < 0x08 then Entries04(env, idx, op, m, r, m')
    else if op < 0x0C then Entries08(env, idx, op, m, r, m')
    else if op < 0x10 then Entries0C(env, idx, op, m, r, m')
    else if op < 0x14 then Entries10(env, idx, op, m, r, m')
    else if op < 0x18 then Entries14(env, idx, op, m, r, m')
    else if op < 0x1C then Entries18(env, idx, op, m, r, m')
    else if op < 0x20 then Entries1C(env, idx, op, m, r, m')
    else if op < 0x24 then Entries20(env, idx, op, m, r, m')
    else if op < 0x28 then Entries24(env, idx, op, m, r, m')
    else if op < 0x2C then Entries28(env, idx, op, m, r, m')
    else if op < 0x30 then Entries2C(env, idx, op, m, r, m')
    else if op < 0x34 then Entries30(env, idx, op, m, r, m')
    else if op < 0x38 then Entries34(env, idx, op, m, r, m')
    else if op < 0x3C then Entries38(env, idx, op, m, r, m')
    else if op < 0x40 then Entries3C(env, idx, op, m, r, m')
    else if op < 0x44 then Entries40(env, idx, op, m, r, m')
    else if op < 0x48 then Entries44(env, idx, op, m, r, m')
    else if op < 0x4C then Entries48(env, idx, op, m, r, m')
    else if op < 0x50 then Entries4C(env, idx, op, m, r, m')
    else if op < 0x54 then Entries50(env, idx, op, m, r, m')
    else if op < 0x58 then Entries54(env, idx, op, m, r, m')
    else if op < 0x5C then Entries58(env, idx, op, m, r, m')
    else if op < 0x60 then Entries5C(env, idx, op, m, r, m')
    else if op < 0x64 then Entries60(env, idx, op, m, r, m')
    else if op < 0x68 then Entries64(env, idx, op, m, r, m')
    else if op < 0x6A then Entries68(env, idx, op, m, r, m')
    else false
  }

  ghost predicate Entries00(env: Env, idx: nat, op: byte, m: Machine, r: Result<Signal>, m': Machine)
    requires Fits(env, idx, m)
  {
    match op
    case 0x00 => LifeFlow.EndLifeStep(env, idx, m, r, m')  // END
    case 0x01 => LifeFlow.SkipOneStep(env, idx, m, r, m')  // NOP
    case 0x02 => LifeFlow.ConditionalStep(env, idx, SNIF, m, r, m')  // SNIF
    case 0x03 => LifeFlow.OffsetStep(env, idx, m, r, m')  // OFFSET
    case _ => false
  }

  ghost predicate Entries04(env: Env, idx: nat, op: byte, m: Machine, r: Result<Signal>, m': Machine)
    requires Fits(env, idx, m)
  {
    match op
    case 0x04 => LifeFlow.ConditionalStep(env, idx, NEVERIF, m, r, m')  // NEVERIF
    case 0x05 => LifeFlow.EmptyStep(env, idx, m, r, m')
    case 0x06 => LifeFlow.EmptyStep(env, idx, m, r, m')  // NO_IF
    case 0x07 => LifeFlow.EmptyStep(env, idx, m, r, m')
    case _ => false
  }

  ghost predicate Entries08(env: Env, idx: nat, op: byte, m: Machine, r: Result<Signal>, m': Machine)
    requires Fits(env, idx, m)
  {
    match op
    case 0x08 => LifeFlow.EmptyStep(env, idx, m, r, m')
    case 0x09 => LifeFlow.EmptyStep(env, idx, m, r, m')
    case 0x0A => LifeFlow.SkipOneStep(env, idx, m, r, m')  // LABEL
    case 0x0B => LifeFlow.ReturnStep(env, idx, m, r, m')  // RETURN
    case _ => false
  }

  ghost predicate Entries0C(env: Env, idx: nat, op: byte, m: Machine, r: Result<Signal>, m': Machine)
    requires Fits(env, idx, m)
  {
    match op
    case 0x0C => LifeFlow.ConditionalStep(env, idx, IF, m, r, m')  // IF
    case 0x0D => LifeFlow.ConditionalStep(env, idx, SWIF, m, r, m')  // SWIF
    case 0x0E => LifeFlow.ConditionalStep(env, idx, ONEIF, m, r, m')  // ONEIF
    case 0x0F => LifeFlow.OffsetStep(env, idx, m, r, m')  // ELSE
    case _ => false
  }

  ghost predicate Entries10(env: Env, idx: nat, op: byte, m: Machine, r: Result<Signal>, m': Machine)
    requires Fits(env, idx, m)
  {
    match op
    case 0x10 => LifeFlow.EmptyStep(env, idx, m, r, m')  // ENDIF
    case 0x11 => LifeActors.BodyStep(env, idx, m, r, m')
    case 0x12 => LifeActors.BodyObjStep(env, idx, m, r, m')
    case 0x13 => LifeActors.AnimStep(env, idx, m, r, m')
    case _ => false
  }

  ghost predicate Entries14(env: Env, idx: nat, op: byte, m: Machine, r: Result<Signal>, m': Machine)
    requires Fits(env, idx, m)
  {
    match op
    case 0x14 => LifeActors.AnimObjStep(env, idx, m, r, m')
    case 0x15 => LifeFlow.SetLifeStep(env, idx, m, r, m')
    case 0x16 => LifeFlow.SetLifeObjStep(env, idx, m, r, m')
    case 0x17 => LifeFlow.SetTrackStep(env, idx, m, r, m')
    case _ => false
  }

  ghost predicate Entries18(env: Env, idx: nat, op: byte, m: Machine, r: Result<Signal>, m': Machine)
    requires Fits(env, idx, m)
  {
    match op
    case 0x18 => LifeFlow.SetTrackObjStep(env, idx, m, r, m')
    case 0x19 => LifeWorld.MessageStep(env, idx, m, r, m')
    case 0x1A => LifeActors.FallableStep(env, idx, m, r, m')
    case 0x1B => LifeActors.SetDirModeStep(env, idx, m, r, m')
    case _ => false
  }

  ghost predicate Entries1C(env: Env, idx: nat, op: byte, m: Machine, r: Result<Signal>, m': Machine)
    requires Fits(env, idx, m)
  {
    match op
    case 0x1C => LifeActors.SetDirModeObjStep(env, idx, m, r, m')
    case 0x1D => LifeWorld.CamFollowStep(env, idx, m, r, m')
    case 0x1E => LifeWorld.SetBehaviourStep(env, idx, m, r, m')
    case 0x1F => LifeWorld.SetFlagCubeStep(env, idx, m, r, m')
    case _ => false
  }

  ghost predicate Entries20(env: Env, idx: nat, op: byte, m: Machine, r: Result<Signal>, m': Machine)
    requires Fits(env, idx, m)
  {
    match op
    case 0x20 => LifeFlow.SkipOneStep(env, idx, m, r, m')  // COMPORTEMENT
    case 0x21 => LifeFlow.SetLifeStep(env, idx, m, r, m')  // SET_COMPORTEMENT
    case 0x22 => LifeFlow.SetLifeObjStep(env, idx, m, r, m')  // SET_COMPORTEMENT_OBJ
    case 0x23 => LifeFlow.ReturnStep(env, idx, m, r, m')  // END_COMPORTEMENT
    case _ => false
  }

  ghost predicate Entries24(env: Env, idx: nat, op: byte, m: Machine, r: Result<Signal>, m': Machine)
    requires Fits(env, idx, m)
  {
    match op
    case 0x24 => LifeWorld.SetFlagGameStep(env, idx, m, r, m')
    case 0x25 => LifeActors.KillObjStep(env, idx, m, r, m')
    case 0x26 => LifeActors.SuicideStep(env, idx, m, r, m')
    case 0x27 => LifeWorld.UseOneLittleKeyStep(env, idx, m, r, m')
    case _ => false
  }

  ghost predicate Entries28(env: Env, idx: nat, op: byte, m: Machine, r: Result<Signal>, m': Machine)
    requires Fits(env, idx, m)
  {
    match op
    case 0x28 => LifeWorld.GiveGoldPiecesStep(env, idx, m, r, m')
    case 0x29 => LifeFlow.EndLifeStep(env, idx, m, r, m')  // END_LIFE
    case 0x2A => LifeFlow.StopLTrackStep(env, idx, m, r, m')
    case 0x2B => LifeFlow.RestoreLTrackStep(env, idx, m, r, m')
    case _ => false
  }

  ghost predicate Entries2C(env: Env, idx: nat, op: byte, m: Machine, r: Result<Signal>, m': Machine)
    requires Fits(env, idx, m)
  {
    match op
    case 0x2C => LifeWorld.MessageObjStep(env, idx, m, r, m')
    case 0x2D => LifeWorld.IncChapterStep(env, idx, m, r, m')
    case 0x2E => LifeWorld.FoundObjectStep(env, idx, m, r, m')
    case 0x2F => LifeActors.SetDoorStep(env, idx, env.cfg.angle270, true, -1, m, r, m')  // SET_DOOR_LEFT
    case _ => false
  }

  ghost predicate Entries30(env: Env, idx: nat, op: byte, m: Machine, r: Result<Signal>, m': Machine)
    requires Fits(env, idx, m)
  {
    match op
    case 0x30 => LifeActors.SetDoorStep(env, idx, env.cfg.angle90, true, 1, m, r, m')  // SET_DOOR_RIGHT
    case 0x31 => LifeActors.SetDoorStep(env, idx, env.cfg.angle180, false, -1, m, r, m')  // SET_DOOR_UP
    case 0x32 => LifeActors.SetDoorStep(env, idx, env.cfg.angle0, false, 1, m, r, m')  // SET_DOOR_DOWN
    case 0x33 => LifeActors.GiveBonusStep(env, idx, m, r, m')
    case _ => false
  }

  ghost predicate Entries34(env: Env, idx: nat, op: byte, m: Machine, r: Result<Signal>, m': Machine)
    requires Fits(env, idx, m)
  {
    match op
    case 0x34 => LifeWorld.ChangeCubeStep(env, idx, m, r, m')
    case 0x35 => LifeActors.ObjColStep(env, idx, m, r, m')
    case 0x36 => LifeActors.BrickColStep(env, idx, m, r, m')
    case 0x37 => LifeFlow.ConditionalStep(env, idx, OR_IF, m, r, m')  // OR_IF
    case _ => false
  }

  ghost predicate Entries38(env: Env, idx: nat, op: byte, m: Machine, r: Result<Signal>, m': Machine)
    requires Fits(env, idx, m)
  {
    match op
    case 0x38 => LifeActors.InvisibleStep(env, idx, m, r, m')
    case 0x39 => LifeWorld.ZoomStep(env, idx, m, r, m')
    case 0x3A => LifeActors.PosPointStep(env, idx, m, r, m')
    case 0x3B => LifeWorld.SetMagicLevelStep(env, idx, m, r, m')
    case _ => false
  }

  ghost predicate Entries3C(env: Env, idx: nat, op: byte, m: Machine, r: Result<Signal>, m': Machine)
    requires Fits(env, idx, m)
  {
    match op
    case 0x3C => LifeWorld.SubMagicPointStep(env, idx, m, r, m')
    case 0x3D => LifeActors.SetLifePointObjStep(env, idx, m, r, m')
    case 0x3E => LifeActors.SubLifePointObjStep(env, idx, m, r, m')
    case 0x3F => LifeActors.HitObjStep(env, idx, m, r, m')
    case _ => false
  }

  ghost predicate Entries40(env: Env, idx: nat, op: byte, m: Machine, r: Result<Signal>, m': Machine)
    requires Fits(env, idx, m)
  {
    match op
    case 0x40 => LifeWorld.PlayFlaStep(env, idx, m, r, m')
    case 0x41 => LifeWorld.PlayMidiStep(env, idx, m, r, m')
    case 0x42 => LifeWorld.IncCloverBoxStep(env, idx, m, r, m')
    case 0x43 => LifeWorld.SetUsedInventoryStep(env, idx, m, r, m')
    case _ => false
  }

  ghost predicate Entries44(env: Env, idx: nat, op: byte, m: Machine, r: Result<Signal>, m': Machine)
    requires Fits(env, idx, m)
  {
    match op
    case 0x44 => LifeWorld.AddChoiceStep(env, idx, m, r, m')
    case 0x45 => LifeWorld.AskChoiceStep(env, idx, m, r, m')
    case 0x46 => LifeWorld.BigMessageStep(env, idx, m, r, m')
    case 0x47 => LifeActors.InitPingouinStep(env, idx, m, r, m')
    case _ => false
  }

  ghost predicate Entries48(env: Env, idx: nat, op: byte, m: Machine, r: Result<Signal>, m': Machine)
    requires Fits(env, idx, m)
  {
    match op
    case 0x48 => LifeWorld.HoloPosStep(env, idx, true, m, r, m')  // SET_HOLO_POS
    case 0x49 => LifeWorld.HoloPosStep(env, idx, false, m, r, m')  // CLR_HOLO_POS
    case 0x4A => LifeWorld.FuelStep(env, idx, 1, m, r, m')  // ADD_FUEL
    case 0x4B => LifeWorld.FuelStep(env, idx, -1, m, r, m')  // SUB_FUEL
    case _ => false
  }

  ghost predicate Entries4C(env: Env, idx: nat, op: byte, m: Machine, r: Result<Signal>, m': Machine)
    requires Fits(env, idx, m)
  {
    match op
    case 0x4C => LifeWorld.SetGrmStep(env, idx, m, r, m')
    case 0x4D => LifeWorld.SayMessageStep(env, idx, m, r, m')
    case 0x4E => LifeWorld.SayMessageObjStep(env, idx, m, r, m')
    case 0x4F => LifeWorld.FullPointStep(env, idx, m, r, m')
    case _ => false
  }

  ghost predicate Entries50(env: Env, idx: nat, op: byte, m: Machine, r: Result<Signal>, m': Machine)
    requires Fits(env, idx, m)
  {
    match op
    case 0x50 => LifeActors.BetaStep(env, idx, m, r, m')
    case 0x51 => LifeWorld.GrmOffStep(env, idx, m, r, m')
    case 0x52 => LifeWorld.FadeStep(env, idx, op, m, r, m')
    case 0x53 => LifeWorld.FadeStep(env, idx, op, m, r, m')
    case _ => false
  }

  ghost predicate Entries54(env: Env, idx: nat, op: byte, m: Machine, r: Result<Signal>, m': Machine)
    requires Fits(env, idx, m)
  {
    match op
    case 0x54 => LifeWorld.FadeStep(env, idx, op, m, r, m')
    case 0x55 => LifeWorld.FadeStep(env, idx, op, m, r, m')
    case 0x56 => LifeWorld.FadeStep(env, idx, op, m, r, m')
    case 0x57 => LifeWorld.FadeStep(env, idx, op, m, r, m')
    case _ => false
  }

  ghost predicate Entries58(env: Env, idx: nat, op: byte, m: Machine, r: Result<Signal>, m': Machine)
    requires Fits(env, idx, m)
  {
    match op
    case 0x58 => LifeActors.ExplodeObjStep(env, idx, m, r, m')
    case 0x59 => LifeWorld.BubbleOnStep(env, idx, m, r, m')
    case 0x5A => LifeWorld.BubbleOffStep(env, idx, m, r, m')
    case 0x5B => LifeWorld.AskChoiceObjStep(env, idx, m, r, m')
    case _ => false
  }

  ghost predicate Entries5C(env: Env, idx: nat, op: byte, m: Machine, r: Result<Signal>, m': Machine)
    requires Fits(env, idx, m)
  {
    match op
    case 0x5C => LifeWorld.SetPaletteStep(env, idx, true, m, r, m')  // SET_DARK_PAL
    case 0x5D => LifeWorld.SetPaletteStep(env, idx, false, m, r, m')  // SET_NORMAL_PAL
    case 0x5E => LifeWorld.MessageSendellStep(env, idx, m, r, m')
    case 0x5F => LifeActors.AnimSetStep(env, idx, m, r, m')
    case _ => false
  }

  ghost predicate Entries60(env: Env, idx: nat, op: byte, m: Machine, r: Result<Signal>, m': Machine)
    requires Fits(env, idx, m)
  {
    match op
    case 0x60 => LifeWorld.HolomapTrajStep(env, idx, m, r, m')
    case 0x61 => LifeFlow.GameOverStep(env, idx, m, r, m')  // GAME_OVER
    case 0x62 => LifeFlow.TheEndStep(env, idx, m, r, m')  // THE_END
    case 0x63 => LifeWorld.MidiOffStep(env, idx, m, r, m')
    case _ => false
  }

  ghost predicate Entries64(env: Env, idx: nat, op: byte, m: Machine, r: Result<Signal>, m': Machine)
    requires Fits(env, idx, m)
  {
    match op
    case 0x64 => LifeWorld.PlayCdTrackStep(env, idx, m, r, m')
    case 0x65 => LifeWorld.ProjIsoStep(env, idx, m, r, m')
    case 0x66 => LifeWorld.Proj3DStep(env, idx, m, r, m')
    case 0x67 => LifeWorld.TextStep(env, idx, m, r, m')
    case _ => false
  }

  ghost predicate Entries68(env: Env, idx: nat, op: byte, m: Machine, r: Result<Signal>, m': Machine)
    requires Fits(env, idx, m)
  {
    match op
    case 0x68 => LifeWorld.ClearTextStep(env, idx, m, r, m')
    case 0x69 => LifeFlow.BrutalExitStep(env, idx, m, r, m')  // BRUTAL_EXIT
    case _ => false
  }

  /** What the terminators leave behind: END and END_LIFE halt the actor's
      script, GAME_OVER kills the hero, THE_END finishes the scene loop,
      BRUTAL_EXIT sends it back to the menu, and RETURN and END_COMPORTEMENT
      leave the world as it was. */
  ghost predicate Aftermath(idx: nat, op: byte, w: World, w': World) {
    && (op in {END, END_LIFE} ==> idx < |w'.actors| && w'.actors[idx].positionInLifeScript == -1)
    && (op == GAME_OVER ==> 0 < |w'.actors| && w'.actors[0].life == 0)
    && (op == THE_END ==> w'.loopState == LoopFinished)
    && (op == BRUTAL_EXIT ==> w'.loopState == LoopReturnToMenu)
    && (op in {RETURN, END_COMPORTEMENT} ==> w' == w)
  }

  /** Executing one instruction changes the script buffer at most in the
      instruction's opcode byte and the byte after it. */
  ghost predicate Patched(m: Machine, m': Machine) {
    && |m'.s| == |m.s|
    && forall i | 0 <= i < |m.s| && i != m.opcodePos && i != m.opcodePos + 1 :: m'.s[i] == m.s[i]
  }

  /** What every successful step keeps, whatever the entry: the buffer is
      patched at most at the instruction, the run breaks exactly at the
      terminators, and a terminator leaves its aftermath. */
  ghost predicate Sound(idx: nat, op: byte, m: Machine, r: Result<Signal>, m': Machine) {
    && (r.Ok? ==> Patched(m, m'))
    && (r.Ok? ==> (r.value == Break <==> IsTerminator(op)))
    && (r.Ok? && r.value == Break ==> Aftermath(idx, op, m.w, m'.w))
  }

  /** The contract of the opcode table: the entry's step, and what every step
      keeps. */
  ghost predicate Executed(env: Env, idx: nat, op: byte, m: Machine, r: Result<Signal>, m': Machine)
    requires Fits(env, idx, m)
  {
    Performs(env, idx, op, m, r, m') && Sound(idx, op, m, r, m')
  }

  // The table in slices of four entries, each proved on its own.

  method Dispatch00(e: Engine, ctx: Context, op: byte) returns (r: Result<Signal>)
    requires e.Ready(ctx) && Executing(ctx, op) && op < 0x04
    modifies e, ctx, ctx.script
    ensures LifeFlow.Stepped(e, ctx)
    ensures Entries00(e.env, ctx.actorIdx, op, old(Now(e, ctx)), r, Now(e, ctx))
    ensures Sound(ctx.actorIdx, op, old(Now(e, ctx)), r, Now(e, ctx))
  {
    if op == END { r := LifeFlow.EndLife(e, ctx); }
    else if op == NOP { r := LifeFlow.SkipOne(e, ctx); }
    else if op == SNIF { r := LifeFlow.Snif(e, ctx); }
    else { r := LifeFlow.Offset(e, ctx); }  // OFFSET
  }

  method Dispatch04(e: Engine, ctx: Context, op: byte) returns (r: Result<Signal>)
    requires e.Ready(ctx) && Executing(ctx, op) && 0x04 <= op < 0x08
    modifies e, ctx, ctx.script
    ensures LifeFlow.Stepped(e, ctx)
    ensures Entries04(e.env, ctx.actorIdx, op, old(Now(e, ctx)), r, Now(e, ctx))
    ensures Sound(ctx.actorIdx, op, old(Now(e, ctx)), r, Now(e, ctx))
  {
    if op == NEVERIF { r := LifeFlow.NeverIf(e, ctx); }
    else { r := LifeFlow.Empty(e, ctx); }  // 0x05..0x07
  }

  method Dispatch08(e: Engine, ctx: Context, op: byte) returns (r: Result<Signal>)
    requires e.Ready(ctx) && Executing(ctx, op) && 0x08 <= op < 0x0C
    modifies e, ctx, ctx.script
    ensures LifeFlow.Stepped(e, ctx)
    ensures Entries08(e.env, ctx.actorIdx, op, old(Now(e, ctx)), r, Now(e, ctx))
    ensures Sound(ctx.actorIdx, op, old(Now(e, ctx)), r, Now(e, ctx))
  {
    if 0x08 <= op <= 0x09 { r := LifeFlow.Empty(e, ctx); }
    else if op == LABEL { r := LifeFlow.SkipOne(e, ctx); }
    else { r := LifeFlow.Return(e, ctx); }  // RETURN
  }

  method Dispatch0C(e: Engine, ctx: Context, op: byte) returns (r: Result<Signal>)
    requires e.Ready(ctx) && Executing(ctx, op) && 0x0C <= op < 0x10
    modifies e, ctx, ctx.script
    ensures LifeFlow.Stepped(e, ctx)
    ensures Entries0C(e.env, ctx.actorIdx, op, old(Now(e, ctx)), r, Now(e, ctx))
    ensures Sound(ctx.actorIdx, op, old(Now(e, ctx)), r, Now(e, ctx))
  {
    if op == IF { r := LifeFlow.If(e, ctx); }
    else if op == SWIF { r := LifeFlow.Swif(e, ctx); }
    else if op == ONEIF { r := LifeFlow.OneIf(e, ctx); }
    else { r := LifeFlow.Else(e, ctx); }  // ELSE
  }

  method Dispatch10(e: Engine, ctx: Context, op: byte) returns (r: Result<Signal>)
    requires e.Ready(ctx) && Executing(ctx, op) && 0x10 <= op < 0x14
    modifies e, ctx, ctx.script
    ensures LifeFlow.Stepped(e, ctx)
    ensures Entries10(e.env, ctx.actorIdx, op, old(Now(e, ctx)), r, Now(e, ctx))
    ensures Sound(ctx.actorIdx, op, old(Now(e, ctx)), r, Now(e, ctx))
  {
    if op == 0x10 { r := LifeFlow.Empty(e, ctx); }  // ENDIF
    else if op == 0x11 { r := LifeActors.Body(e, ctx); }
    else if op == 0x12 { r := LifeActors.BodyObj(e, ctx); }
    else { r := LifeActors.Anim(e, ctx); }  // 0x13
  }

  method Dispatch14(e: Engine, ctx: Context, op: byte) returns (r: Result<Signal>)
    requires e.Ready(ctx) && Executing(ctx, op) && 0x14 <= op < 0x18
    modifies e, ctx, ctx.script
    ensures LifeFlow.Stepped(e, ctx)
    ensures Entries14(e.env, ctx.actorIdx, op, old(Now(e, ctx)), r, Now(e, ctx))
    ensures Sound(ctx.actorIdx, op, old(Now(e, ctx)), r, Now(e, ctx))
  {
    if op == 0x14 { r := LifeActors.AnimObj(e, ctx); }
    else if op == 0x15 { r := LifeFlow.SetLife(e, ctx); }
    else if op == 0x16 { r := LifeFlow.SetLifeObj(e, ctx); }
    else { r := LifeFlow.SetTrack(e, ctx); }  // 0x17
  }

  method Dispatch18(e: Engine, ctx: Context, op: byte) returns (r: Result<Signal>)
    requires e.Ready(ctx) && Executing(ctx, op) && 0x18 <= op < 0x1C
    modifies e, ctx, ctx.script
    ensures LifeFlow.Stepped(e, ctx)
    ensures Entries18(e.env, ctx.actorIdx, op, old(Now(e, ctx)), r, Now(e, ctx))
    ensures Sound(ctx.actorIdx, op, old(Now(e, ctx)), r, Now(e, ctx))
  {
    if op == 0x18 { r := LifeFlow.SetTrackObj(e, ctx); }
    else if op == 0x19 { r := LifeWorld.Message(e, ctx); }
    else if op == 0x1A { r := LifeActors.Fallable(e, ctx); }
    else { r := LifeActors.SetDirMode(e, ctx); }  // 0x1B
  }

  method Dispatch1C(e: Engine, ctx: Context, op: byte) returns (r: Result<Signal>)
    requires e.Ready(ctx) && Executing(ctx, op) && 0x1C <= op < 0x20
    modifies e, ctx, ctx.script
    ensures LifeFlow.Stepped(e, ctx)
    ensures Entries1C(e.env, ctx.actorIdx, op, old(Now(e, ctx)), r, Now(e, ctx))
    ensures Sound(ctx.actorIdx, op, old(Now(e, ctx)), r, Now(e, ctx))
  {
    if op == 0x1C { r := LifeActors.SetDirModeObj(e, ctx); }
    else if op == 0x1D { r := LifeWorld.CamFollow(e, ctx); }
    else if op == 0x1E { r := LifeWorld.SetBehaviour(e, ctx); }
    else { r := LifeWorld.SetFlagCube(e, ctx); }  // 0x1F
  }

  method Dispatch20(e: Engine, ctx: Context, op: byte) returns (r: Result<Signal>)
    requires e.Ready(ctx) && Executing(ctx, op) && 0x20 <= op < 0x24
    modifies e, ctx, ctx.script
    ensures LifeFlow.Stepped(e, ctx)
    ensures Entries20(e.env, ctx.actorIdx, op, old(Now(e, ctx)), r, Now(e, ctx))
    ensures Sound(ctx.actorIdx, op, old(Now(e, ctx)), r, Now(e, ctx))
  {
    if op == 0x20 { r := LifeFlow.SkipOne(e, ctx); }  // COMPORTEMENT
    else if op == 0x21 { r := LifeFlow.SetLife(e, ctx); }  // SET_COMPORTEMENT
    else if op == 0x22 { r := LifeFlow.SetLifeObj(e, ctx); }  // SET_COMPORTEMENT_OBJ
    else { r := LifeFlow.Return(e, ctx); }  // END_COMPORTEMENT
  }

  method Dispatch24(e: Engine, ctx: Context, op: byte) returns (r: Result<Signal>)
    requires e.Ready(ctx) && Executing(ctx, op) && 0x24 <= op < 0x28
    modifies e, ctx, ctx.script
    ensures LifeFlow.Stepped(e, ctx)
    ensures Entries24(e.env, ctx.actorIdx, op, old(Now(e, ctx)), r, Now(e, ctx))
    ensures Sound(ctx.actorIdx, op, old(Now(e, ctx)), r, Now(e, ctx))
  {
    if op == 0x24 { r := LifeWorld.SetFlagGame(e, ctx); }
    else if op == 0x25 { r := LifeActors.KillObj(e, ctx); }
    else if op == 0x26 { r := LifeActors.Suicide(e, ctx); }
    else { r := LifeWorld.UseOneLittleKey(e, ctx); }  // 0x27
  }

  method Dispatch28(e: Engine, ctx: Context, op: byte) returns (r: Result<Signal>)
    requires e.Ready(ctx) && Executing(ctx, op) && 0x28 <= op < 0x2C
    modifies e, ctx, ctx.script
    ensures LifeFlow.Stepped(e, ctx)
    ensures Entries28(e.env, ctx.actorIdx, op, old(Now(e, ctx)), r, Now(e, ctx))
    ensures Sound(ctx.actorIdx, op, old(Now(e, ctx)), r, Now(e, ctx))
  {
    if op == 0x28 { r := LifeWorld.GiveGoldPieces(e, ctx); }
    else if op == END_LIFE { r := LifeFlow.EndLife(e, ctx); }
    else if op == 0x2A { r := LifeFlow.StopLTrack(e, ctx); }
    else { r := LifeFlow.RestoreLTrack(e, ctx); }  // 0x2B
  }

  method Dispatch2C(e: Engine, ctx: Context, op: byte) returns (r: Result<Signal>)
    requires e.Ready(ctx) && Executing(ctx, op) && 0x2C <= op < 0x30
    modifies e, ctx, ctx.script
    ensures LifeFlow.Stepped(e, ctx)
    ensures Entries2C(e.env, ctx.actorIdx, op, old(Now(e, ctx)), r, Now(e, ctx))
    ensures Sound(ctx.actorIdx, op, old(Now(e, ctx)), r, Now(e, ctx))
  {
    if op == 0x2C { r := LifeWorld.MessageObj(e, ctx); }
    else if op == 0x2D { r := LifeWorld.IncChapter(e, ctx); }
    else if op == 0x2E { r := LifeWorld.FoundObject(e, ctx); }
    else { r := LifeActors.SetDoorLeft(e, ctx); }  // 0x2F
  }

  method Dispatch30(e: Engine, ctx: Context, op: byte) returns (r: Result<Signal>)
    requires e.Ready(ctx) && Executing(ctx, op) && 0x30 <= op < 0x34
    modifies e, ctx, ctx.script
    ensures LifeFlow.Stepped(e, ctx)
    ensures Entries30(e.env, ctx.actorIdx, op, old(Now(e, ctx)), r, Now(e, ctx))
    ensures Sound(ctx.actorIdx, op, old(Now(e, ctx)), r, Now(e, ctx))
  {
    if op == 0x30 { r := LifeActors.SetDoorRight(e, ctx); }
    else if op == 0x31 { r := LifeActors.SetDoorUp(e, ctx); }
    else if op == 0x32 { r := LifeActors.SetDoorDown(e, ctx); }
    else { r := LifeActors.GiveBonus(e, ctx); }  // 0x33
  }

  method Dispatch34(e: Engine, ctx: Context, op: byte) returns (r: Result<Signal>)
    requires e.Ready(ctx) && Executing(ctx, op) && 0x34 <= op < 0x38
    modifies e, ctx, ctx.script
    ensures LifeFlow.Stepped(e, ctx)
    ensures Entries34(e.env, ctx.actorIdx, op, old(Now(e, ctx)), r, Now(e, ctx))
    ensures Sound(ctx.actorIdx, op, old(Now(e, ctx)), r, Now(e, ctx))
  {
    if op == CHANGE_CUBE { r := LifeWorld.ChangeCube(e, ctx); }
    else if op == 0x35 { r := LifeActors.ObjCol(e, ctx); }
    else if op == 0x36 { r := LifeActors.BrickCol(e, ctx); }
    else { r := LifeFlow.OrIf(e, ctx); }  // OR_IF
  }

  method Dispatch38(e: Engine, ctx: Context, op: byte) returns (r: Result<Signal>)
    requires e.Ready(ctx) && Executing(ctx, op) && 0x38 <= op < 0x3C
    modifies e, ctx, ctx.script
    ensures LifeFlow.Stepped(e, ctx)
    ensures Entries38(e.env, ctx.actorIdx, op, old(Now(e, ctx)), r, Now(e, ctx))
    ensures Sound(ctx.actorIdx, op, old(Now(e, ctx)), r, Now(e, ctx))
  {
    if op == 0x38 { r := LifeActors.Invisible(e, ctx); }
    else if op == 0x39 { r := LifeWorld.Zoom(e, ctx); }
    else if op == POS_POINT { r := LifeActors.PosPoint(e, ctx); }
    else { r := LifeWorld.SetMagicLevel(e, ctx); }  // 0x3B
  }

  method Dispatch3C(e: Engine, ctx: Context, op: byte) returns (r: Result<Signal>)
    requires e.Ready(ctx) && Executing(ctx, op) && 0x3C <= op < 0x40
    modifies e, ctx, ctx.script
    ensures LifeFlow.Stepped(e, ctx)
    ensures Entries3C(e.env, ctx.actorIdx, op, old(Now(e, ctx)), r, Now(e, ctx))
    ensures Sound(ctx.actorIdx, op, old(Now(e, ctx)), r, Now(e, ctx))
  {
    if op == 0x3C { r := LifeWorld.SubMagicPoint(e, ctx); }
    else if op == 0x3D { r := LifeActors.SetLifePointObj(e, ctx); }
    else if op == 0x3E { r := LifeActors.SubLifePointObj(e, ctx); }
    else { r := LifeActors.HitObj(e, ctx); }  // 0x3F
  }

  method Dispatch40(e: Engine, ctx: Context, op: byte) returns (r: Result<Signal>)
    requires e.Ready(ctx) && Executing(ctx, op) && 0x40 <= op < 0x44
    modifies e, ctx, ctx.script
    ensures LifeFlow.Stepped(e, ctx)
    ensures Entries40(e.env, ctx.actorIdx, op, old(Now(e, ctx)), r, Now(e, ctx))
    ensures Sound(ctx.actorIdx, op, old(Now(e, ctx)), r, Now(e, ctx))
  {
    if op == 0x40 { r := LifeWorld.PlayFla(e, ctx); }
    else if op == 0x41 { r := LifeWorld.PlayMidi(e, ctx); }
    else if op == 0x42 { r := LifeWorld.IncCloverBox(e, ctx); }
    else { r := LifeWorld.SetUsedInventory(e, ctx); }  // 0x43
  }

  method Dispatch44(e: Engine, ctx: Context, op: byte) returns (r: Result<Signal>)
    requires e.Ready(ctx) && Executing(ctx, op) && 0x44 <= op < 0x48
    modifies e, ctx, ctx.script
    ensures LifeFlow.Stepped(e, ctx)
    ensures Entries44(e.env, ctx.actorIdx, op, old(Now(e, ctx)), r, Now(e, ctx))
    ensures Sound(ctx.actorIdx, op, old(Now(e, ctx)), r, Now(e, ctx))
  {
    if op == 0x44 { r := LifeWorld.AddChoice(e, ctx); }
    else if op == 0x45 { r := LifeWorld.AskChoice(e, ctx); }
    else if op == 0x46 { r := LifeWorld.BigMessage(e, ctx); }
    else { r := LifeActors.InitPingouin(e, ctx); }  // 0x47
  }

  method Dispatch48(e: Engine, ctx: Context, op: byte) returns (r: Result<Signal>)
    requires e.Ready(ctx) && Executing(ctx, op) && 0x48 <= op < 0x4C
    modifies e, ctx, ctx.script
    ensures LifeFlow.Stepped(e, ctx)
    ensures Entries48(e.env, ctx.actorIdx, op, old(Now(e, ctx)), r, Now(e, ctx))
    ensures Sound(ctx.actorIdx, op, old(Now(e, ctx)), r, Now(e, ctx))
  {
    if op == 0x48 { r := LifeWorld.HoloPos(e, ctx, true); }
    else if op == 0x49 { r := LifeWorld.HoloPos(e, ctx, false); }
    else if op == 0x4A { r := LifeWorld.Fuel(e, ctx, 1); }
    else { r := LifeWorld.Fuel(e, ctx, -1); }  // 0x4B
  }

  method Dispatch4C(e: Engine, ctx: Context, op: byte) returns (r: Result<Signal>)
    requires e.Ready(ctx) && Executing(ctx, op) && 0x4C <= op < 0x50
    modifies e, ctx, ctx.script
    ensures LifeFlow.Stepped(e, ctx)
    ensures Entries4C(e.env, ctx.actorIdx, op, old(Now(e, ctx)), r, Now(e, ctx))
    ensures Sound(ctx.actorIdx, op, old(Now(e, ctx)), r, Now(e, ctx))
  {
    if op == 0x4C { r := LifeWorld.SetGrm(e, ctx); }
    else if op == 0x4D { r := LifeWorld.SayMessage(e, ctx); }
    else if op == 0x4E { r := LifeWorld.SayMessageObj(e, ctx); }
    else { r := LifeWorld.FullPoint(e, ctx); }  // 0x4F
  }

  method Dispatch50(e: Engine, ctx: Context, op: byte) returns (r: Result<Signal>)
    requires e.Ready(ctx) && Executing(ctx, op) && 0x50 <= op < 0x54
    modifies e, ctx, ctx.script
    ensures LifeFlow.Stepped(e, ctx)
    ensures Entries50(e.env, ctx.actorIdx, op, old(Now(e, ctx)), r, Now(e, ctx))
    ensures Sound(ctx.actorIdx, op, old(Now(e, ctx)), r, Now(e, ctx))
  {
    if op == 0x50 { r := LifeActors.Beta(e, ctx); }
    else if op == 0x51 { r := LifeWorld.GrmOff(e, ctx); }
    else { r := LifeWorld.Fade(e, ctx, op); }  // 0x52..0x53
  }

  method Dispatch54(e: Engine, ctx: Context, op: byte) returns (r: Result<Signal>)
    requires e.Ready(ctx) && Executing(ctx, op) && 0x54 <= op < 0x58
    modifies e, ctx, ctx.script
    ensures LifeFlow.Stepped(e, ctx)
    ensures Entries54(e.env, ctx.actorIdx, op, old(Now(e, ctx)), r, Now(e, ctx))
    ensures Sound(ctx.actorIdx, op, old(Now(e, ctx)), r, Now(e, ctx))
  {
    r := LifeWorld.Fade(e, ctx, op);  // 0x54..0x57
  }

  method Dispatch58(e: Engine, ctx: Context, op: byte) returns (r: Result<Signal>)
    requires e.Ready(ctx) && Executing(ctx, op) && 0x58 <= op < 0x5C
    modifies e, ctx, ctx.script
    ensures LifeFlow.Stepped(e, ctx)
    ensures Entries58(e.env, ctx.actorIdx, op, old(Now(e, ctx)), r, Now(e, ctx))
    ensures Sound(ctx.actorIdx, op, old(Now(e, ctx)), r, Now(e, ctx))
  {
    if op == 0x58 { r := LifeActors.ExplodeObj(e, ctx); }
    else if op == 0x59 { r := LifeWorld.BubbleOn(e, ctx); }
    else if op == 0x5A { r := LifeWorld.BubbleOff(e, ctx); }
    else { r := LifeWorld.AskChoiceObj(e, ctx); }  // 0x5B
  }

  method Dispatch5C(e: Engine, ctx: Context, op: byte) returns (r: Result<Signal>)
    requires e.Ready(ctx) && Executing(ctx, op) && 0x5C <= op < 0x60
    modifies e, ctx, ctx.script
    ensures LifeFlow.Stepped(e, ctx)
    ensures Entries5C(e.env, ctx.actorIdx, op, old(Now(e, ctx)), r, Now(e, ctx))
    ensures Sound(ctx.actorIdx, op, old(Now(e, ctx)), r, Now(e, ctx))
  {
    if op == 0x5C { r := LifeWorld.SetPalette(e, ctx, true); }
    else if op == 0x5D { r := LifeWorld.SetPalette(e, ctx, false); }
    else if op == 0x5E { r := LifeWorld.MessageSendell(e, ctx); }
    else { r := LifeActors.AnimSet(e, ctx); }  // 0x5F
  }

  method Dispatch60(e: Engine, ctx: Context, op: byte) returns (r: Result<Signal>)
    requires e.Ready(ctx) && Executing(ctx, op) && 0x60 <= op < 0x64
    modifies e, ctx, ctx.script
    ensures LifeFlow.Stepped(e, ctx)
    ensures Entries60(e.env, ctx.actorIdx, op, old(Now(e, ctx)), r, Now(e, ctx))
    ensures Sound(ctx.actorIdx, op, old(Now(e, ctx)), r, Now(e, ctx))
  {
    if op == 0x60 { r := LifeWorld.HolomapTraj(e, ctx); }
    else if op == GAME_OVER { r := LifeFlow.GameOver(e, ctx); }
    else if op == THE_END { r := LifeFlow.TheEnd(e, ctx); }
    else { r := LifeWorld.MidiOff(e, ctx); }  // 0x63
  }

  method Dispatch64(e: Engine, ctx: Context, op: byte) returns (r: Result<Signal>)
    requires e.Ready(ctx) && Executing(ctx, op) && 0x64 <= op < 0x68
    modifies e, ctx, ctx.script
    ensures LifeFlow.Stepped(e, ctx)
    ensures Entries64(e.env, ctx.actorIdx, op, old(Now(e, ctx)), r, Now(e, ctx))
    ensures Sound(ctx.actorIdx, op, old(Now(e, ctx)), r, Now(e, ctx))
  {
    if op == 0x64 { r := LifeWorld.PlayCdTrack(e, ctx); }
    else if op == 0x65 { r := LifeWorld.ProjIso(e, ctx); }
    else if op == 0x66 { r := LifeWorld.Proj3D(e, ctx); }
    else { r := LifeWorld.Text(e, ctx); }  // 0x67
  }

  method Dispatch68(e: Engine, ctx: Context, op: byte) returns (r: Result<Signal>)
    requires e.Ready(ctx) && Executing(ctx, op) && 0x68 <= op as int < TableSize
    modifies e, ctx, ctx.script
    ensures LifeFlow.Stepped(e, ctx)
    ensures Entries68(e.env, ctx.actorIdx, op, old(Now(e, ctx)), r, Now(e, ctx))
    ensures Sound(ctx.actorIdx, op, old(Now(e, ctx)), r, Now(e, ctx))
  {
    if op == 0x68 { r := LifeWorld.ClearText(e, ctx); }
    else { r := LifeFlow.BrutalExit(e, ctx); }  // 0x69
  }

  /** Looks the opcode up in the 0x6A-entry table and runs its handler. */
  method Dispatch(e: Engine, ctx: Context, op: byte) returns (r: Result<Signal>)
    requires e.Ready(ctx) && Executing(ctx, op) && (op as int) < TableSize
    modifies e, ctx, ctx.script
    ensures LifeFlow.Stepped(e, ctx) && Executed(e.env, ctx.actorIdx, op, old(Now(e, ctx)), r, Now(e, ctx))
  {
    if op < 0x04 { r := Dispatch00(e, ctx, op); }
    else if op < 0x08 { r := Dispatch04(e, ctx, op); }
    else if op < 0x0C { r := Dispatch08(e, ctx, op); }
    else if op < 0x10 { r := Dispatch0C(e, ctx, op); }
    else if op < 0x14 { r := Dispatch10(e, ctx, op); }
    else if op < 0x18 { r := Dispatch14(e, ctx, op); }
    else if op < 0x1C { r := Dispatch18(e, ctx, op); }
    else if op < 0x20 { r := Dispatch1C(e, ctx, op); }
    else if op < 0x24 { r := Dispatch20(e, ctx, op); }
    else if op < 0x28 { r := Dispatch24(e, ctx, op); }
    else if op < 0x2C { r := Dispatch28(e, ctx, op); }
    else if op < 0x30 { r := Dispatch2C(e, ctx, op); }
    else if op < 0x34 { r := Dispatch30(e, ctx, op); }
    else if op < 0x38 { r := Dispatch34(e, ctx, op); }
    else if op < 0x3C { r := Dispatch38(e, ctx, op); }
    else if op < 0x40 { r := Dispatch3C(e, ctx, op); }
    else if op < 0x44 { r := Dispatch40(e, ctx, op); }
    else if op < 0x48 { r := Dispatch44(e, ctx, op); }
    else if op < 0x4C { r := Dispatch48(e, ctx, op); }
    else if op < 0x50 { r := Dispatch4C(e, ctx, op); }
    else if op < 0x54 { r := Dispatch50(e, ctx, op); }
    else if op < 0x58 { r := Dispatch54(e, ctx, op); }
    else if op < 0x5C { r := Dispatch58(e, ctx, op); }
    else if op < 0x60 { r := Dispatch5C(e, ctx, op); }
    else if op < 0x64 { r := Dispatch60(e, ctx, op); }
    else if op < 0x68 { r := Dispatch64(e, ctx, op); }
    else { r := Dispatch68(e, ctx, op); }
  }

  /** How a run of one actor's script ends: at a terminator (the opcode that
      ended it), on an error, or when the step budget is spent. */
  datatype RunOutcome = Ended(last: byte) | Failed(error: Error) | OutOfFuel

  /** One turn of the interpreter loop: the opcode fetched, the snapshot the
      handler started from (the cursor just past the opcode), its result and
      the snapshot it left. */
  datatype Cycle = Cycle(op: byte, before: Machine, result: Result<Signal>, after: Machine)

  /** Where the next turn starts: the start snapshot, or the snapshot the last
      handler left with the opcode offset moved to the cursor. */
  function Resume(m0: Machine, cycles: seq<Cycle>): (m: Machine)
    ensures cycles != [] ==> m.w == cycles[|cycles| - 1].after.w && m.s == cycles[|cycles| - 1].after.s
    ensures m.opcodePos == m.pos
    ensures cycles == [] ==> m == m0.(opcodePos := m0.pos)
  {
    if cycles == [] then m0.(opcodePos := m0.pos)
    else
      var a := cycles[|cycles| - 1].after;
      a.(opcodePos := a.pos)
  }

  /** A turn taken from snapshot `f`: the opcode is the byte at the cursor,
      it has an entry in the table, the entry ran from just past it, and the
      step kept what every step keeps. */
  ghost predicate Fetched(env: Env, idx: nat, f: Machine, c: Cycle) {
    && 0 <= f.pos < |f.s| && f.opcodePos == f.pos
    && c.op == f.s[f.pos] && (c.op as int) < TableSize
    && c.before == f.(pos := f.pos + 1)
    && Fits(env, idx, c.before)
    && Sound(idx, c.op, c.before, c.result, c.after)
  }

  /** The turn's step is the one its table entry takes. */
  ghost predicate Performed(env: Env, idx: nat, c: Cycle) {
    Fits(env, idx, c.before) && Performs(env, idx, c.op, c.before, c.result, c.after)
  }

  /** The shape of a run from `m0`: each turn starts where the previous one
      left off, and every turn but the last went on (Ok(Continue)). */
  ghost predicate Chain(env: Env, idx: nat, m0: Machine, cycles: seq<Cycle>)
    decreases |cycles|
  {
    if cycles == [] then true
    else
      var init := cycles[..|cycles| - 1];
      && Chain(env, idx, m0, init)
      && (init != [] ==> init[|init| - 1].result == Ok(Continue))
      && Fetched(env, idx, Resume(m0, init), cycles[|cycles| - 1])
  }

  /** The turns of a run from `m0`: a chain whose every turn is the step of
      its opcode's table entry. */
  ghost predicate Run(env: Env, idx: nat, m0: Machine, cycles: seq<Cycle>) {
    && Chain(env, idx, m0, cycles)
    && forall k {:trigger Performed(env, idx, cycles[k])} | 0 <= k < |cycles| :: Performed(env, idx, cycles[k])
  }

  datatype Status = Running | Stopped(outcome: RunOutcome)

  /** Whether a run from `m0` with a budget of `fuel` turns stops after
      `cycles`, and how: the cursor could not be put on the life cursor; the
      last handler failed or ended the run; the budget is spent; the next
      opcode cannot be read or has no table entry. */
  ghost function Verdict(m0: Machine, cycles: seq<Cycle>, fuel: nat): Status {
    if cycles == [] && !(0 <= m0.pos <= |m0.s|) then Stopped(Failed(SeekOutOfRange(m0.pos)))
    else if cycles != [] && cycles[|cycles| - 1].result.Err? then Stopped(Failed(cycles[|cycles| - 1].result.error))
    else if cycles != [] && cycles[|cycles| - 1].result == Ok(Break) then Stopped(Ended(cycles[|cycles| - 1].op))
    else if |cycles| >= fuel then Stopped(OutOfFuel)
    else
      var f := Resume(m0, cycles);
      if !(0 <= f.pos < |f.s|) then Stopped(Failed(ReadPastEnd(f.pos)))
      else if f.s[f.pos] as int >= TableSize then Stopped(Failed(BadOpcode(f.s[f.pos], f.pos)))
      else Running
  }

  /** The snapshot a run of actor `idx` starts from: the cursor and the
      opcode offset on the actor's life cursor. */
  function Start(w: World, s: seq<byte>, idx: nat): (m0: Machine)
    requires idx < |w.actors|
    ensures m0.w == w && m0.s == s && m0.pos == m0.opcodePos == w.actors[idx].positionInLifeScript
  {
    Machine(w, s, w.actors[idx].positionInLifeScript, w.actors[idx].positionInLifeScript)
  }

  /** Runs the actor's life script from its life cursor: read an opcode,
      fail if it has no table entry, run its handler, move the opcode offset
      to the cursor, until a handler fails or ends the run. `cycles` lists
      the turns taken; `fuel` bounds their number. The final world and buffer
      are the ones the last turn left. */
  method ProcessLifeScript(e: Engine, actorIdx: nat, fuel: nat) returns (outcome: RunOutcome, ghost cycles: seq<Cycle>)
    requires e.env.cfg.Valid() && actorIdx < |e.actors|
    requires e.actors[actorIdx].positionInLifeScript >= 0
    modifies e, e.actors[actorIdx].lifeScript
    ensures actorIdx < |e.actors| && e.actors[actorIdx].lifeScript == old(e.actors[actorIdx].lifeScript)
    ensures var m0 := Start(old(e.State()), old(e.actors[actorIdx].lifeScript[..]), actorIdx);
      && Run(e.env, actorIdx, m0, cycles) && |cycles| <= fuel
      && Verdict(m0, cycles, fuel) == Stopped(outcome)
      && e.State() == Resume(m0, cycles).w
      && e.actors[actorIdx].lifeScript[..] == Resume(m0, cycles).s
  {
    var script := e.actors[actorIdx].lifeScript;
    ghost var m0 := Start(e.State(), script[..], actorIdx);
    var ctx := new Context(actorIdx, script);
    cycles := [];
    var start := ctx.Skip(e.actors[actorIdx].positionInLifeScript);
    if start.Err? {
      return Failed(start.error), cycles;
    }
    ctx.UpdateOpcodePos();
    var steps := 0;
    while steps < fuel
      invariant steps == |cycles| <= fuel
      invariant e.Bound(ctx) && ctx.actorIdx == actorIdx && ctx.script == script
      invariant Run(e.env, actorIdx, m0, cycles)
      invariant cycles != [] ==> cycles[|cycles| - 1].result == Ok(Continue)
      invariant Now(e, ctx) == Resume(m0, cycles)
      decreases fuel - steps
    {
      var stop;
      stop, outcome, cycles := Advance(e, ctx, m0, cycles, fuel);
      if stop {
        return;
      }
      steps := steps + 1;
    }
    outcome := OutOfFuel;
  }

  /** One pass of the loop body: fetch the opcode at the cursor and take a
      turn with it, or stop the run when the fetch fails, the opcode has no
      table entry, or the turn fails or ends the run. */
  method Advance(e: Engine, ctx: Context, ghost m0: Machine, ghost cycles: seq<Cycle>, ghost fuel: nat)
    returns (stop: bool, outcome: RunOutcome, ghost cycles': seq<Cycle>)
    requires e.Bound(ctx) && ctx.actorIdx < |e.actors|
    requires Run(e.env, ctx.actorIdx, m0, cycles) && |cycles| < fuel
    requires cycles != [] ==> cycles[|cycles| - 1].result == Ok(Continue)
    requires Now(e, ctx) == Resume(m0, cycles)
    modifies e, ctx, ctx.script
    ensures e.Bound(ctx) && Run(e.env, ctx.actorIdx, m0, cycles')
    ensures e.State() == Resume(m0, cycles').w && ctx.script[..] == Resume(m0, cycles').s
    ensures |cycles'| <= |cycles| + 1 && (stop ==> Verdict(m0, cycles', fuel) == Stopped(outcome))
    ensures !stop ==> && |cycles'| == |cycles| + 1 && cycles' == cycles + [cycles'[|cycles|]]
                      && cycles'[|cycles|].result == Ok(Continue)
                      && Now(e, ctx) == Resume(m0, cycles')
  {
    var fetched := Fetch(e, ctx, m0, cycles, fuel);
    if fetched.Err? {
      return true, Failed(fetched.error), cycles;
    }
    var op := fetched.value;
    outcome := OutOfFuel;
    var step;
    ghost var c;
    step, c := Turn(e, ctx, op, m0, cycles);
    cycles' := cycles + [c];
    if step.Err? {
      return true, Failed(step.error), cycles';
    }
    if step.value == Break {
      return true, Ended(op), cycles';
    }
    stop := false;
  }

  /** Reads the opcode at the cursor. A read past the end of the buffer and
      an opcode past the end of the table stop the run, as Verdict says. */
  method Fetch(e: Engine, ctx: Context, ghost m0: Machine, ghost cycles: seq<Cycle>, ghost fuel: nat)
    returns (r: Result<byte>)
    requires e.Bound(ctx) && |cycles| < fuel
    requires cycles != [] ==> cycles[|cycles| - 1].result == Ok(Continue)
    requires Now(e, ctx) == Resume(m0, cycles)
    modifies ctx
    ensures e.Bound(ctx)
    ensures r.Err? ==> Verdict(m0, cycles, fuel) == Stopped(Failed(r.error))
    ensures r.Ok? ==> && Verdict(m0, cycles, fuel) == Running
                      && e.Ready(ctx) && Executing(ctx, r.value) && (r.value as int) < TableSize
                      && Now(e, ctx) == Resume(m0, cycles).(pos := ctx.opcodePos + 1)
  {
    var read := ctx.ReadByte();
    if read.Err? {
      return Err(read.error);
    }
    if read.value as int >= TableSize {
      return Err(BadOpcode(read.value, ctx.opcodePos));
    }
    r := Ok(read.value);
  }

  /** One turn of the loop once the opcode `op` has been read: run its table
      entry, then move the opcode offset to the cursor. The run so far grows
      by the turn. */
  method Turn(e: Engine, ctx: Context, op: byte, ghost m0: Machine, ghost cycles: seq<Cycle>)
    returns (step: Result<Signal>, ghost c: Cycle)
    requires e.Ready(ctx) && Executing(ctx, op) && (op as int) < TableSize
    requires Run(e.env, ctx.actorIdx, m0, cycles)
    requires cycles != [] ==> cycles[|cycles| - 1].result == Ok(Continue)
    requires Now(e, ctx) == Resume(m0, cycles).(pos := ctx.opcodePos + 1)
    modifies e, ctx, ctx.script
    ensures e.Bound(ctx) && c.result == step && c.op == op
    ensures Run(e.env, ctx.actorIdx, m0, cycles + [c])
    ensures Now(e, ctx) == Resume(m0, cycles + [c])
  {
    ghost var before := Now(e, ctx);
    step := Dispatch(e, ctx, op);
    c := Cycle(op, before, step, Now(e, ctx));
    ctx.UpdateOpcodePos();
    RunExtends(e.env, ctx.actorIdx, m0, cycles, c);
  }

  /** A run that went on so far extends by a turn taken where it left off. */
  lemma RunExtends(env: Env, idx: nat, m0: Machine, cycles: seq<Cycle>, c: Cycle)
    requires Run(env, idx, m0, cycles)
    requires cycles != [] ==> cycles[|cycles| - 1].result == Ok(Continue)
    requires Fetched(env, idx, Resume(m0, cycles), c) && Performed(env, idx, c)
    ensures Run(env, idx, m0, cycles + [c])
  {
    var cycles' := cycles + [c];
    assert cycles'[..|cycles|] == cycles;
    forall k | 0 <= k < |cycles'|
      ensures Performed(env, idx, cycles'[k])
    {
      if k < |cycles| {
        assert cycles'[k] == cycles[k];
      }
    }
  }

  // ---------------------------------------------------------------------------
  // What every run keeps

  /** Every prefix of a chain is a chain, and every turn starts where the
      turns before it left off. */
  lemma {:induction false} ChainTurn(env: Env, idx: nat, m0: Machine, cycles: seq<Cycle>, k: nat)
    requires Chain(env, idx, m0, cycles) && k < |cycles|
    ensures Chain(env, idx, m0, cycles[..k + 1])
    ensures Fetched(env, idx, Resume(m0, cycles[..k]), cycles[k])
  {
    var init := cycles[..|cycles| - 1];
    if k + 1 < |cycles| {
      ChainTurn(env, idx, m0, init, k);
      assert init[..k + 1] == cycles[..k + 1] && init[..k] == cycles[..k] && init[k] == cycles[k];
    } else {
      assert cycles[..k + 1] == cycles && cycles[..k] == init;
    }
  }

  /** Every turn of a run but the last went on: its handler returned
      Ok(Continue) and its opcode is not a terminator. (Every run is a
      chain.) */
  lemma RunContinues(env: Env, idx: nat, m0: Machine, cycles: seq<Cycle>, k: nat)
    requires Chain(env, idx, m0, cycles) && k + 1 < |cycles|
    ensures cycles[k].result == Ok(Continue) && !IsTerminator(cycles[k].op)
  {
    ChainTurn(env, idx, m0, cycles, k + 1);
    var prefix := cycles[..k + 2];
    assert prefix[..k + 1][k] == cycles[k];
    ChainTurn(env, idx, m0, cycles, k);
  }

  /** A run that ended at a terminator leaves the world as that terminator's
      aftermath says. */
  lemma EndedAtTerminator(env: Env, idx: nat, m0: Machine, cycles: seq<Cycle>, fuel: nat, op: byte)
    requires Chain(env, idx, m0, cycles) && Verdict(m0, cycles, fuel) == Stopped(Ended(op))
    ensures cycles != [] && cycles[|cycles| - 1].op == op && IsTerminator(op)
    ensures Aftermath(idx, op, cycles[|cycles| - 1].before.w, Resume(m0, cycles).w)
  {
  }

  /** A byte no turn of a run executed as an opcode, nor as the byte after one. */
  ghost predicate Untouched(cycles: seq<Cycle>, i: int) {
    forall k | 0 <= k < |cycles| :: i != cycles[k].before.opcodePos && i != cycles[k].before.opcodePos + 1
  }

  /** Self-modification stays local: after a run whose turns all succeeded the
      buffer has its length and every byte away from the executed instructions. */
  lemma {:induction false} RunKeepsOtherBytes(env: Env, idx: nat, m0: Machine, cycles: seq<Cycle>)
    requires Chain(env, idx, m0, cycles)
    requires cycles != [] ==> cycles[|cycles| - 1].result.Ok?
    ensures |Resume(m0, cycles).s| == |m0.s|
    ensures forall i | 0 <= i < |m0.s| && Untouched(cycles, i) :: Resume(m0, cycles).s[i] == m0.s[i]
  {
    if cycles != [] {
      var init := cycles[..|cycles| - 1];
      var c := cycles[|cycles| - 1];
      RunKeepsOtherBytes(env, idx, m0, init);
      assert Patched(c.before, c.after);
      forall i | 0 <= i < |m0.s| && Untouched(cycles, i)
        ensures Resume(m0, cycles).s[i] == m0.s[i]
      {
        assert Untouched(init, i) by {
          forall k | 0 <= k < |init|
            ensures i != init[k].before.opcodePos && i != init[k].before.opcodePos + 1
          {
            assert init[k] == cycles[k];
          }
        }
        assert i != c.before.opcodePos && i != c.before.opcodePos + 1;
      }
    }
  }
}
