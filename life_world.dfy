/** Life-script opcodes that act on the game and scene state, on the text and
    overlay state, and on the services outside the interpreter (dialogue,
    camera, audio, palette, holomap). */
module LifeWorld {
  import opened Bytes
  import opened LifeTypes
  import opened LifeEngine
  import opened LifeFlow

  // ---------------------------------------------------------------------------
  // Specification functions

  /** A live number-range overlay: the entry GIVE_GOLD_PIECES reuses. */
  predicate IsLiveRange(o: Overlay) {
    o.info0 != -1 && o.kind == OvNumberRange
  }

  /** Index of the first live number-range overlay, or the table size when
      there is none. */
  function FirstLiveRange(overlays: seq<Overlay>): (i: int)
    ensures 0 <= i <= |overlays|
    ensures i < |overlays| ==> IsLiveRange(overlays[i])
    ensures forall j :: 0 <= j < i ==> !IsLiveRange(overlays[j])
  {
    if |overlays| == 0 then 0
    else if IsLiveRange(overlays[0]) then 0
    else 1 + FirstLiveRange(overlays[1..])
  }

  /** The reused money overlay: it now counts from the averaged value to the
      new amount and lives three more seconds. */
  function RangeRestarted(env: Env, o: Overlay, numKashes: int, lbaTime: int): (o': Overlay)
    ensures o'.kind == o.kind && o'.info1 == numKashes
    ensures o'.lifeTime == lbaTime + 3 * env.cfg.ticksPerSecond
  {
    o.(info0 := env.averageValue(o.info1, o.info0, 100, o.lifeTime - lbaTime - env.cfg.ticksPerSecond),
       info1 := numKashes,
       lifeTime := lbaTime + 3 * env.cfg.ticksPerSecond)
  }

  /** Distance from `p` to the first NUL byte of `s`, or to the end of `s`. */
  function NulDistance(s: seq<byte>, p: int): (k: int)
    requires 0 <= p <= |s|
    ensures 0 <= k <= |s| - p
    ensures forall j :: p <= j < p + k ==> s[j] != 0
    ensures p + k < |s| ==> s[p + k] == 0
    decreases |s| - p
  {
    if p == |s| || s[p] == 0 then 0 else 1 + NulDistance(s, p + 1)
  }

  /** A run of non-NUL bytes from `p` to `q` is at most the distance to the
      first NUL, and exactly that distance when a NUL ends it. */
  lemma NulDistanceAt(s: seq<byte>, p: int, q: int)
    requires 0 <= p <= q <= |s|
    requires forall j :: p <= j < q ==> s[j] != 0
    ensures q - p <= NulDistance(s, p)
    ensures q < |s| && s[q] == 0 ==> NulDistance(s, p) == q - p
  {
  }

  /** The TEXT line position after drawing one line: it moves down by one
      40-pixel line only while a line still fits above the bottom. */
  function NextTextLine(y: int, screenHeight: int): (y': int)
    ensures y' == y || y' == y + 40
    ensures y' == y + 40 <==> y < screenHeight - 40
    ensures y < screenHeight ==> y' < screenHeight
    ensures y >= 0 ==> y' >= 0
  {
    if y < screenHeight - 40 then y + 40 else y
  }

  /** The text the USA release shows for TEXT: its behaviour-normal entry is
      replaced by the save-settings one. */
  function TextShown(cfg: Config, text: int): (t: int)
    ensures !cfg.usaVersion ==> t == text
    ensures t != text ==> cfg.usaVersion && text == cfg.textBehaviourNormal && t == cfg.textSaveSettings
  {
    if cfg.usaVersion && text == cfg.textBehaviourNormal then cfg.textSaveSettings else text
  }

  /** The fades that leave the alarm palette in use. */
  predicate FadeEndsInAlarm(op: byte) {
    op in {0x53, 0x56, 0x57}  // FADE_ALARM_RED, FADE_RED_ALARM, FADE_PAL_ALARM
  }

  // ---------------------------------------------------------------------------
  // Dialogue

  /** MESSAGE: the executing actor speaks the text. */
  ghost predicate MessageStep(env: Env, idx: nat, m: Machine, r: Result<Signal>, m': Machine)
    requires Fits(env, idx, m)
  {
    var s, p, a := m.s, m.pos, m.w.actors[idx];
    && m'.s == m.s
    && (r.Ok? <==> Has(s, p, 2))
    && (r.Ok? ==>
          && r.value == Continue && m'.pos == p + 2
          && m'.w == m.w.(
               scene := m.w.scene.(talkingActor := idx),
               effects := m.w.effects + [Dialogue(idx, S16(s, p), m.w.showBubble, a.talkColor, false)]))
  }

  method Message(e: Engine, ctx: Context) returns (r: Result<Signal>)
    requires e.Ready(ctx)
    modifies e, ctx
    ensures Stepped(e, ctx) && MessageStep(e.env, ctx.actorIdx, old(Now(e, ctx)), r, Now(e, ctx))
  {
    var text :- ctx.ReadSint16LE();
    e.scene := e.scene.(talkingActor := ctx.actorIdx);
    e.effects := e.effects + [Dialogue(ctx.actorIdx, text, e.showBubble, e.actors[ctx.actorIdx].talkColor, false)];
    r := Ok(Continue);
  }

  /** MESSAGE_OBJ: the named actor speaks the text. */
  ghost predicate MessageObjStep(env: Env, idx: nat, m: Machine, r: Result<Signal>, m': Machine)
    requires Fits(env, idx, m)
  {
    var s, p := m.s, m.pos;
    && m'.s == m.s
    && (r.Ok? <==> Has(s, p, 3) && (s[p] as int) < |m.w.actors|)
    && (r.Ok? ==>
          && r.value == Continue && m'.pos == p + 3
          && m'.w == m.w.(
               scene := m.w.scene.(talkingActor := s[p] as int),
               effects := m.w.effects +
                 [Dialogue(s[p] as int, S16(s, p + 1), m.w.showBubble, m.w.actors[s[p]].talkColor, false)]))
  }

  method MessageObj(e: Engine, ctx: Context) returns (r: Result<Signal>)
    requires e.Ready(ctx)
    modifies e, ctx
    ensures Stepped(e, ctx) && MessageObjStep(e.env, ctx.actorIdx, old(Now(e, ctx)), r, Now(e, ctx))
  {
    var other :- ctx.ReadByte();
    var text :- ctx.ReadSint16LE();
    if other as int >= |e.actors| {
      return Err(BadActor(other as int));
    }
    e.scene := e.scene.(talkingActor := other as int);
    e.effects := e.effects + [Dialogue(other as int, text, e.showBubble, e.actors[other].talkColor, false)];
    r := Ok(Continue);
  }

  /** BIG_MESSAGE: the executing actor speaks the text in the full-screen box. */
  ghost predicate BigMessageStep(env: Env, idx: nat, m: Machine, r: Result<Signal>, m': Machine)
    requires Fits(env, idx, m)
  {
    var s, p, a := m.s, m.pos, m.w.actors[idx];
    && m'.s == m.s
    && (r.Ok? <==> Has(s, p, 2))
    && (r.Ok? ==>
          && r.value == Continue && m'.pos == p + 2
          && m'.w == m.w.(
               scene := m.w.scene.(talkingActor := idx),
               effects := m.w.effects + [Dialogue(idx, S16(s, p), m.w.showBubble, a.talkColor, true)]))
  }

  method BigMessage(e: Engine, ctx: Context) returns (r: Result<Signal>)
    requires e.Ready(ctx)
    modifies e, ctx
    ensures Stepped(e, ctx) && BigMessageStep(e.env, ctx.actorIdx, old(Now(e, ctx)), r, Now(e, ctx))
  {
    var text :- ctx.ReadSint16LE();
    e.scene := e.scene.(talkingActor := ctx.actorIdx);
    e.effects := e.effects + [Dialogue(ctx.actorIdx, text, e.showBubble, e.actors[ctx.actorIdx].talkColor, true)];
    r := Ok(Continue);
  }

  /** SAY_MESSAGE: the executing actor says the text in an overlay. */
  ghost predicate SayMessageStep(env: Env, idx: nat, m: Machine, r: Result<Signal>, m': Machine)
    requires Fits(env, idx, m)
  {
    var s, p := m.s, m.pos;
    && m'.s == m.s
    && (r.Ok? <==> Has(s, p, 2))
    && (r.Ok? ==>
          && r.value == Continue && m'.pos == p + 2
          && m'.w == m.w.(
               overlays := env.addOverlay(m.w.overlays, OvText, S16(s, p), idx),
               effects := m.w.effects + [LifeEngine.SayMessage(idx, S16(s, p))]))
  }

  method SayMessage(e: Engine, ctx: Context) returns (r: Result<Signal>)
    requires e.Ready(ctx)
    modifies e, ctx
    ensures Stepped(e, ctx) && SayMessageStep(e.env, ctx.actorIdx, old(Now(e, ctx)), r, Now(e, ctx))
  {
    var text :- ctx.ReadSint16LE();
    e.overlays := e.env.addOverlay(e.overlays, OvText, text, ctx.actorIdx);
    e.effects := e.effects + [LifeEngine.SayMessage(ctx.actorIdx, text)];
    r := Ok(Continue);
  }

  /** SAY_MESSAGE_OBJ: the named actor says the text in an overlay. */
  ghost predicate SayMessageObjStep(env: Env, idx: nat, m: Machine, r: Result<Signal>, m': Machine)
    requires Fits(env, idx, m)
  {
    var s, p := m.s, m.pos;
    && m'.s == m.s
    && (r.Ok? <==> Has(s, p, 3))
    && (r.Ok? ==>
          && r.value == Continue && m'.pos == p + 3
          && m'.w == m.w.(
               overlays := env.addOverlay(m.w.overlays, OvText, S16(s, p + 1), s[p] as int),
               effects := m.w.effects + [LifeEngine.SayMessage(s[p] as int, S16(s, p + 1))]))
  }

  method SayMessageObj(e: Engine, ctx: Context) returns (r: Result<Signal>)
    requires e.Ready(ctx)
    modifies e, ctx
    ensures Stepped(e, ctx) && SayMessageObjStep(e.env, ctx.actorIdx, old(Now(e, ctx)), r, Now(e, ctx))
  {
    var other :- ctx.ReadByte();
    var text :- ctx.ReadSint16LE();
    e.overlays := e.env.addOverlay(e.overlays, OvText, text, other as int);
    e.effects := e.effects + [LifeEngine.SayMessage(other as int, text)];
    r := Ok(Continue);
  }

  /** ADD_CHOICE: append a choice to the pending list. */
  ghost predicate AddChoiceStep(env: Env, idx: nat, m: Machine, r: Result<Signal>, m': Machine)
    requires Fits(env, idx, m)
  {
    var s, p := m.s, m.pos;
    && m'.s == m.s
    && (r.Ok? <==> Has(s, p, 2))
    && (r.Ok? ==>
          && r.value == Continue && m'.pos == p + 2
          && m'.w == m.w.(game := m.w.game.(choices := m.w.game.choices + [S16(s, p)])))
  }

  method AddChoice(e: Engine, ctx: Context) returns (r: Result<Signal>)
    requires e.Ready(ctx)
    modifies e, ctx
    ensures Stepped(e, ctx) && AddChoiceStep(e.env, ctx.actorIdx, old(Now(e, ctx)), r, Now(e, ctx))
  {
    var choice :- ctx.ReadSint16LE();
    e.game := e.game.(choices := e.game.choices + [choice]);
    r := Ok(Continue);
  }

  /** ASK_CHOICE: the executing actor asks the question over the pending
      choices; the player's answer is stored and the list is emptied. */
  ghost predicate AskChoiceStep(env: Env, idx: nat, m: Machine, r: Result<Signal>, m': Machine)
    requires Fits(env, idx, m)
  {
    var s, p, g := m.s, m.pos, m.w.game;
    && m'.s == m.s
    && (r.Ok? <==> Has(s, p, 2))
    && (r.Ok? ==>
          && r.value == Continue && m'.pos == p + 2
          && m'.w == m.w.(
               game := g.(choiceAnswer := env.playerChoice(S16(s, p), g.choices), choices := []),
               effects := m.w.effects + [LifeEngine.AskChoice(idx, S16(s, p), g.choices, m.w.showBubble)]))
  }

  method AskChoice(e: Engine, ctx: Context) returns (r: Result<Signal>)
    requires e.Ready(ctx)
    modifies e, ctx
    ensures Stepped(e, ctx) && AskChoiceStep(e.env, ctx.actorIdx, old(Now(e, ctx)), r, Now(e, ctx))
  {
    var question :- ctx.ReadSint16LE();
    e.effects := e.effects + [LifeEngine.AskChoice(ctx.actorIdx, question, e.game.choices, e.showBubble)];
    e.game := e.game.(choiceAnswer := e.env.playerChoice(question, e.game.choices), choices := []);
    r := Ok(Continue);
  }

  /** ASK_CHOICE_OBJ: the same, asked by the named actor once the camera has
      left the scenery view. */
  ghost predicate AskChoiceObjStep(env: Env, idx: nat, m: Machine, r: Result<Signal>, m': Machine)
    requires Fits(env, idx, m)
  {
    var s, p, g := m.s, m.pos, m.w.game;
    && m'.s == m.s
    && (r.Ok? <==> Has(s, p, 3) && (s[p] as int) < |m.w.actors|)
    && (r.Ok? ==>
          && r.value == Continue && m'.pos == p + 3
          && m'.w == m.w.(
               game := g.(choiceAnswer := env.playerChoice(S16(s, p + 1), g.choices), choices := []),
               effects := m.w.effects + [ExitSceneryView, LifeEngine.AskChoice(s[p] as int, S16(s, p + 1), g.choices, m.w.showBubble)]))
  }

  method AskChoiceObj(e: Engine, ctx: Context) returns (r: Result<Signal>)
    requires e.Ready(ctx)
    modifies e, ctx
    ensures Stepped(e, ctx) && AskChoiceObjStep(e.env, ctx.actorIdx, old(Now(e, ctx)), r, Now(e, ctx))
  {
    var other :- ctx.ReadByte();
    var question :- ctx.ReadSint16LE();
    if other as int >= |e.actors| {
      return Err(BadActor(other as int));
    }
    e.effects := e.effects + [ExitSceneryView, LifeEngine.AskChoice(other as int, question, e.game.choices, e.showBubble)];
    e.game := e.game.(choiceAnswer := e.env.playerChoice(question, e.game.choices), choices := []);
    r := Ok(Continue);
  }

  ghost predicate BubbleOnStep(env: Env, idx: nat, m: Machine, r: Result<Signal>, m': Machine)
    requires Fits(env, idx, m)
  {
    && m'.s == m.s
    && r == Ok(Continue) && m'.pos == m.pos
    && m'.w == m.w.(showBubble := true)
  }

  method BubbleOn(e: Engine, ctx: Context) returns (r: Result<Signal>)
    requires e.Ready(ctx)
    modifies e
    ensures Stepped(e, ctx) && BubbleOnStep(e.env, ctx.actorIdx, old(Now(e, ctx)), r, Now(e, ctx))
  {
    e.showBubble := true;
    r := Ok(Continue);
  }

  ghost predicate BubbleOffStep(env: Env, idx: nat, m: Machine, r: Result<Signal>, m': Machine)
    requires Fits(env, idx, m)
  {
    && m'.s == m.s
    && r == Ok(Continue) && m'.pos == m.pos
    && m'.w == m.w.(showBubble := false)
  }

  method BubbleOff(e: Engine, ctx: Context) returns (r: Result<Signal>)
    requires e.Ready(ctx)
    modifies e
    ensures Stepped(e, ctx) && BubbleOffStep(e.env, ctx.actorIdx, old(Now(e, ctx)), r, Now(e, ctx))
  {
    e.showBubble := false;
    r := Ok(Continue);
  }

  /** TEXT: draw one credits line at the line position, if it still fits. */
  ghost predicate TextStep(env: Env, idx: nat, m: Machine, r: Result<Signal>, m': Machine)
    requires Fits(env, idx, m)
  {
    var s, p, y := m.s, m.pos, m.w.textYPos;
    && m'.s == m.s
    && (r.Ok? <==> Has(s, p, 2))
    && (r.Ok? ==>
          && r.value == Continue && m'.pos == p + 2
          && m'.w == m.w.(
               textYPos := NextTextLine(y, env.screenHeight),
               effects := m.w.effects +
                 (if y < env.screenHeight - 40 then [DrawText(TextShown(env.cfg, S16(s, p)), y)] else [])))
  }

  method Text(e: Engine, ctx: Context) returns (r: Result<Signal>)
    requires e.Ready(ctx)
    modifies e, ctx
    ensures Stepped(e, ctx) && TextStep(e.env, ctx.actorIdx, old(Now(e, ctx)), r, Now(e, ctx))
  {
    var text :- ctx.ReadSint16LE();
    if e.textYPos < e.env.screenHeight - 40 {
      if e.env.cfg.usaVersion {
        if text == e.env.cfg.textBehaviourNormal {
          text := e.env.cfg.textSaveSettings;
        }
      }
      e.effects := e.effects + [DrawText(text, e.textYPos)];
      e.textYPos := e.textYPos + 40;
    }
    r := Ok(Continue);
  }

  /** CLEAR_TEXT: clear the credits area and restart at the top line. */
  ghost predicate ClearTextStep(env: Env, idx: nat, m: Machine, r: Result<Signal>, m': Machine)
    requires Fits(env, idx, m)
  {
    && m'.s == m.s
    && r == Ok(Continue) && m'.pos == m.pos
    && m'.w == m.w.(textYPos := 0, effects := m.w.effects + [LifeEngine.ClearText])
  }

  method ClearText(e: Engine, ctx: Context) returns (r: Result<Signal>)
    requires e.Ready(ctx)
    modifies e
    ensures Stepped(e, ctx) && ClearTextStep(e.env, ctx.actorIdx, old(Now(e, ctx)), r, Now(e, ctx))
  {
    e.textYPos := 0;
    e.effects := e.effects + [LifeEngine.ClearText];
    r := Ok(Continue);
  }

  /** MESSAGE_SENDELL: show Sendell's message screen. */
  ghost predicate MessageSendellStep(env: Env, idx: nat, m: Machine, r: Result<Signal>, m': Machine)
    requires Fits(env, idx, m)
  {
    && m'.s == m.s
    && r == Ok(Continue) && m'.pos == m.pos
    && m'.w == m.w.(effects := m.w.effects + [SendellMessage])
  }

  method MessageSendell(e: Engine, ctx: Context) returns (r: Result<Signal>)
    requires e.Ready(ctx)
    modifies e
    ensures Stepped(e, ctx) && MessageSendellStep(e.env, ctx.actorIdx, old(Now(e, ctx)), r, Now(e, ctx))
  {
    e.effects := e.effects + [SendellMessage];
    r := Ok(Continue);
  }

  // ---------------------------------------------------------------------------
  // Flags, scene and camera

  /** SET_FLAG_CUBE: set a scene flag. */
  ghost predicate SetFlagCubeStep(env: Env, idx: nat, m: Machine, r: Result<Signal>, m': Machine)
    requires Fits(env, idx, m)
  {
    var s, p := m.s, m.pos;
    && m'.s == m.s
    && (r.Ok? <==> Has(s, p, 2))
    && (r.Ok? ==>
          && r.value == Continue && m'.pos == p + 2
          && m'.w == m.w.(scene := m.w.scene.(
               sceneFlags := m.w.scene.sceneFlags[s[p] as int := s[p + 1] as int])))
  }

  method SetFlagCube(e: Engine, ctx: Context) returns (r: Result<Signal>)
    requires e.Ready(ctx)
    modifies e, ctx
    ensures Stepped(e, ctx) && SetFlagCubeStep(e.env, ctx.actorIdx, old(Now(e, ctx)), r, Now(e, ctx))
  {
    var flag :- ctx.ReadByte();
    var value :- ctx.ReadByte();
    e.scene := e.scene.(sceneFlags := e.scene.sceneFlags[flag as int := value as int]);
    r := Ok(Continue);
  }

  /** SET_FLAG_GAME: set a game flag. */
  ghost predicate SetFlagGameStep(env: Env, idx: nat, m: Machine, r: Result<Signal>, m': Machine)
    requires Fits(env, idx, m)
  {
    var s, p := m.s, m.pos;
    && m'.s == m.s
    && (r.Ok? <==> Has(s, p, 2))
    && (r.Ok? ==>
          && r.value == Continue && m'.pos == p + 2
          && m'.w == m.w.(game := m.w.game.(
               gameFlags := m.w.game.gameFlags[s[p] as int := s[p + 1] as int])))
  }

  method SetFlagGame(e: Engine, ctx: Context) returns (r: Result<Signal>)
    requires e.Ready(ctx)
    modifies e, ctx
    ensures Stepped(e, ctx) && SetFlagGameStep(e.env, ctx.actorIdx, old(Now(e, ctx)), r, Now(e, ctx))
  {
    var flag :- ctx.ReadByte();
    var value :- ctx.ReadByte();
    e.game := e.game.(gameFlags := e.game.gameFlags[flag as int := value as int]);
    r := Ok(Continue);
  }

  /** CAM_FOLLOW: centre the camera on the named actor and follow it, unless
      it is already the followed one. */
  ghost predicate CamFollowStep(env: Env, idx: nat, m: Machine, r: Result<Signal>, m': Machine)
    requires Fits(env, idx, m)
  {
    var s, p := m.s, m.pos;
    var same := Has(s, p, 1) && s[p] as int == m.w.scene.followedActor;
    && m'.s == m.s
    && (r.Ok? <==> Has(s, p, 1) && (same || (s[p] as int) < |m.w.actors|))
    && (r.Ok? && same ==> r.value == Continue && m'.pos == p + 1 && m'.w == m.w)
    && (r.Ok? && !same ==>
          && r.value == Continue && m'.pos == p + 1
          && m'.w == m.w.(
               scene := m.w.scene.(followedActor := s[p] as int),
               effects := m.w.effects + [CenterCamera(s[p] as int)]))
  }

  method CamFollow(e: Engine, ctx: Context) returns (r: Result<Signal>)
    requires e.Ready(ctx)
    modifies e, ctx
    ensures Stepped(e, ctx) && CamFollowStep(e.env, ctx.actorIdx, old(Now(e, ctx)), r, Now(e, ctx))
  {
    var followed :- ctx.ReadByte();
    if e.scene.followedActor != followed as int {
      if followed as int >= |e.actors| {
        return Err(BadActor(followed as int));
      }
      e.effects := e.effects + [CenterCamera(followed as int)];
      e.scene := e.scene.(followedActor := followed as int);
    }
    r := Ok(Continue);
  }

  /** SET_BEHAVIOUR: the hero stands, then takes the behaviour. */
  ghost predicate SetBehaviourStep(env: Env, idx: nat, m: Machine, r: Result<Signal>, m': Machine)
    requires Fits(env, idx, m)
  {
    var s, p := m.s, m.pos;
    && m'.s == m.s
    && (r.Ok? <==> Has(s, p, 1))
    && (r.Ok? ==>
          && r.value == Continue && m'.pos == p + 1
          && m'.w == m.w.(
               heroBehaviour := s[p] as int,
               effects := m.w.effects + [InitAnim(env.cfg.animStanding, 0), SetHeroBehaviour(s[p] as int)]))
  }

  method SetBehaviour(e: Engine, ctx: Context) returns (r: Result<Signal>)
    requires e.Ready(ctx)
    modifies e, ctx
    ensures Stepped(e, ctx) && SetBehaviourStep(e.env, ctx.actorIdx, old(Now(e, ctx)), r, Now(e, ctx))
  {
    var behaviour :- ctx.ReadByte();
    e.effects := e.effects + [InitAnim(e.env.cfg.animStanding, 0), SetHeroBehaviour(behaviour as int)];
    e.heroBehaviour := behaviour as int;
    r := Ok(Continue);
  }

  /** CHANGE_CUBE: request a change to the given scene, entering it at the
      scene's own start position. */
  ghost predicate ChangeCubeStep(env: Env, idx: nat, m: Machine, r: Result<Signal>, m': Machine)
    requires Fits(env, idx, m)
  {
    var s, p := m.s, m.pos;
    && m'.s == m.s
    && (r.Ok? <==> Has(s, p, 1))
    && (r.Ok? ==>
          && r.value == Continue && m'.pos == p + 1
          && m'.w == m.w.(scene := m.w.scene.(
               needChangeScene := s[p] as int, heroPositionIsScene := true)))
  }

  method ChangeCube(e: Engine, ctx: Context) returns (r: Result<Signal>)
    requires e.Ready(ctx)
    modifies e, ctx
    ensures Stepped(e, ctx) && ChangeCubeStep(e.env, ctx.actorIdx, old(Now(e, ctx)), r, Now(e, ctx))
  {
    var scene :- ctx.ReadByte();
    e.scene := e.scene.(needChangeScene := scene as int, heroPositionIsScene := true);
    r := Ok(Continue);
  }

  ghost predicate HolomapTrajStep(env: Env, idx: nat, m: Machine, r: Result<Signal>, m': Machine)
    requires Fits(env, idx, m)
  {
    var s, p := m.s, m.pos;
    && m'.s == m.s
    && (r.Ok? <==> Has(s, p, 1))
    && (r.Ok? ==>
          && r.value == Continue && m'.pos == p + 1
          && m'.w == m.w.(scene := m.w.scene.(holomapTrajectory := s[p] as int)))
  }

  method HolomapTraj(e: Engine, ctx: Context) returns (r: Result<Signal>)
    requires e.Ready(ctx)
    modifies e, ctx
    ensures Stepped(e, ctx) && HolomapTrajStep(e.env, ctx.actorIdx, old(Now(e, ctx)), r, Now(e, ctx))
  {
    var trajectory :- ctx.ReadByte();
    e.scene := e.scene.(holomapTrajectory := trajectory as int);
    r := Ok(Continue);
  }

  /** SET_HOLO_POS and CLR_HOLO_POS: mark or unmark a holomap location. */
  ghost predicate HoloPosStep(env: Env, idx: nat, add: bool, m: Machine, r: Result<Signal>, m': Machine)
    requires Fits(env, idx, m)
  {
    var s, p := m.s, m.pos;
    && m'.s == m.s
    && (r.Ok? <==> Has(s, p, 1))
    && (r.Ok? ==>
          && r.value == Continue && m'.pos == p + 1
          && m'.w == m.w.(effects := m.w.effects + [HolomapPosition(s[p] as int, add)]))
  }

  method HoloPos(e: Engine, ctx: Context, add: bool) returns (r: Result<Signal>)
    requires e.Ready(ctx)
    modifies e, ctx
    ensures Stepped(e, ctx) && HoloPosStep(e.env, ctx.actorIdx, add, old(Now(e, ctx)), r, Now(e, ctx))
  {
    var location :- ctx.ReadByte();
    e.effects := e.effects + [HolomapPosition(location as int, add)];
    r := Ok(Continue);
  }

  /** SET_GRM: select a ceiling grid. */
  ghost predicate SetGrmStep(env: Env, idx: nat, m: Machine, r: Result<Signal>, m': Machine)
    requires Fits(env, idx, m)
  {
    var s, p := m.s, m.pos;
    && m'.s == m.s
    && (r.Ok? <==> Has(s, p, 1))
    && (r.Ok? ==>
          && r.value == Continue && m'.pos == p + 1
          && m'.w == m.w.(ceilingGridIdx := s[p] as int,
               effects := m.w.effects + [InitCeilingGrid(s[p] as int)]))
  }

  method SetGrm(e: Engine, ctx: Context) returns (r: Result<Signal>)
    requires e.Ready(ctx)
    modifies e, ctx
    ensures Stepped(e, ctx) && SetGrmStep(e.env, ctx.actorIdx, old(Now(e, ctx)), r, Now(e, ctx))
  {
    var grid :- ctx.ReadByte();
    e.ceilingGridIdx := grid as int;
    e.effects := e.effects + [InitCeilingGrid(grid as int)];
    r := Ok(Continue);
  }

  /** GRM_OFF: drop the ceiling grid, if one is selected. */
  ghost predicate GrmOffStep(env: Env, idx: nat, m: Machine, r: Result<Signal>, m': Machine)
    requires Fits(env, idx, m)
  {
    && m'.s == m.s
    && r == Ok(Continue) && m'.pos == m.pos
    && (m.w.ceilingGridIdx == -1 ==> m'.w == m.w)
    && (m.w.ceilingGridIdx != -1 ==>
      m'.w == m.w.(useCeilingGrid := -1, ceilingGridIdx := -1,
                              effects := m.w.effects + [CreateGridMap]))
  }

  method GrmOff(e: Engine, ctx: Context) returns (r: Result<Signal>)
    requires e.Ready(ctx)
    modifies e
    ensures Stepped(e, ctx) && GrmOffStep(e.env, ctx.actorIdx, old(Now(e, ctx)), r, Now(e, ctx))
  {
    if e.ceilingGridIdx != -1 {
      e.useCeilingGrid := -1;
      e.ceilingGridIdx := -1;
      e.effects := e.effects + [CreateGridMap];
    }
    r := Ok(Continue);
  }

  /** ZOOM: enter or leave the zoomed scenery view. */
  ghost predicate ZoomStep(env: Env, idx: nat, m: Machine, r: Result<Signal>, m': Machine)
    requires Fits(env, idx, m)
  {
    var s, p := m.s, m.pos;
    && m'.s == m.s
    && (r.Ok? <==> Has(s, p, 1))
    && (r.Ok? ==>
          && r.value == Continue && m'.pos == p + 1
          && m'.w == m.w.(effects := m.w.effects + [LifeEngine.Zoom(s[p] != 0)]))
  }

  method Zoom(e: Engine, ctx: Context) returns (r: Result<Signal>)
    requires e.Ready(ctx)
    modifies e, ctx
    ensures Stepped(e, ctx) && ZoomStep(e.env, ctx.actorIdx, old(Now(e, ctx)), r, Now(e, ctx))
  {
    var zoom :- ctx.ReadByte();
    e.effects := e.effects + [LifeEngine.Zoom(zoom != 0)];
    r := Ok(Continue);
  }

  /** PROJ_3D: switch to the credits camera; grid tiles are no longer drawn. */
  ghost predicate Proj3DStep(env: Env, idx: nat, m: Machine, r: Result<Signal>, m': Machine)
    requires Fits(env, idx, m)
  {
    && m'.s == m.s
    && r == Ok(Continue) && m'.pos == m.pos
    && m'.w == m.w.(scene := m.w.scene.(gridTileRendering := false),
                                    effects := m.w.effects + [Projection3D])
  }

  method Proj3D(e: Engine, ctx: Context) returns (r: Result<Signal>)
    requires e.Ready(ctx)
    modifies e
    ensures Stepped(e, ctx) && Proj3DStep(e.env, ctx.actorIdx, old(Now(e, ctx)), r, Now(e, ctx))
  {
    e.scene := e.scene.(gridTileRendering := false);
    e.effects := e.effects + [Projection3D];
    r := Ok(Continue);
  }

  ghost predicate ProjIsoStep(env: Env, idx: nat, m: Machine, r: Result<Signal>, m': Machine)
    requires Fits(env, idx, m)
  {
    && m'.s == m.s
    && r == Ok(Continue) && m'.pos == m.pos
    && m'.w == m.w.(effects := m.w.effects + [InitProjections])
  }

  method ProjIso(e: Engine, ctx: Context) returns (r: Result<Signal>)
    requires e.Ready(ctx)
    modifies e
    ensures Stepped(e, ctx) && ProjIsoStep(e.env, ctx.actorIdx, old(Now(e, ctx)), r, Now(e, ctx))
  {
    e.effects := e.effects + [InitProjections];
    r := Ok(Continue);
  }

  // ---------------------------------------------------------------------------
  // Palette

  /** The six palette fades (0x52..0x57); the alarm palette stays in use
      after the three that end in it. */
  ghost predicate FadeStep(env: Env, idx: nat, op: byte, m: Machine, r: Result<Signal>, m': Machine)
    requires Fits(env, idx, m)
  {
    && m'.s == m.s
    && r == Ok(Continue) && m'.pos == m.pos
    && m'.w == m.w.(alternatePalette := FadeEndsInAlarm(op),
                                    effects := m.w.effects + [LifeEngine.Fade(op)])
  }

  method Fade(e: Engine, ctx: Context, op: byte) returns (r: Result<Signal>)
    requires e.Ready(ctx) && 0x52 <= op <= 0x57
    modifies e
    ensures Stepped(e, ctx) && FadeStep(e.env, ctx.actorIdx, op, old(Now(e, ctx)), r, Now(e, ctx))
  {
    e.effects := e.effects + [LifeEngine.Fade(op)];
    e.alternatePalette := op == 0x53 || op == 0x56 || op == 0x57;
    r := Ok(Continue);
  }

  /** SET_DARK_PAL and SET_NORMAL_PAL. */
  ghost predicate SetPaletteStep(env: Env, idx: nat, dark: bool, m: Machine, r: Result<Signal>, m': Machine)
    requires Fits(env, idx, m)
  {
    && m'.s == m.s
    && r == Ok(Continue) && m'.pos == m.pos
    && m'.w == m.w.(effects := m.w.effects + [LifeEngine.SetPalette(dark)])
  }

  method SetPalette(e: Engine, ctx: Context, dark: bool) returns (r: Result<Signal>)
    requires e.Ready(ctx)
    modifies e
    ensures Stepped(e, ctx) && SetPaletteStep(e.env, ctx.actorIdx, dark, old(Now(e, ctx)), r, Now(e, ctx))
  {
    e.effects := e.effects + [LifeEngine.SetPalette(dark)];
    r := Ok(Continue);
  }

  // ---------------------------------------------------------------------------
  // Audio and video

  ghost predicate PlayMidiStep(env: Env, idx: nat, m: Machine, r: Result<Signal>, m': Machine)
    requires Fits(env, idx, m)
  {
    var s, p := m.s, m.pos;
    && m'.s == m.s
    && (r.Ok? <==> Has(s, p, 1))
    && (r.Ok? ==>
          && r.value == Continue && m'.pos == p + 1
          && m'.w == m.w.(effects := m.w.effects + [LifeEngine.PlayMidi(s[p] as int)]))
  }

  method PlayMidi(e: Engine, ctx: Context) returns (r: Result<Signal>)
    requires e.Ready(ctx)
    modifies e, ctx
    ensures Stepped(e, ctx) && PlayMidiStep(e.env, ctx.actorIdx, old(Now(e, ctx)), r, Now(e, ctx))
  {
    var midi :- ctx.ReadByte();
    e.effects := e.effects + [LifeEngine.PlayMidi(midi as int)];
    r := Ok(Continue);
  }

  ghost predicate PlayCdTrackStep(env: Env, idx: nat, m: Machine, r: Result<Signal>, m': Machine)
    requires Fits(env, idx, m)
  {
    var s, p := m.s, m.pos;
    && m'.s == m.s
    && (r.Ok? <==> Has(s, p, 1))
    && (r.Ok? ==>
          && r.value == Continue && m'.pos == p + 1
          && m'.w == m.w.(effects := m.w.effects + [LifeEngine.PlayCdTrack(s[p] as int)]))
  }

  method PlayCdTrack(e: Engine, ctx: Context) returns (r: Result<Signal>)
    requires e.Ready(ctx)
    modifies e, ctx
    ensures Stepped(e, ctx) && PlayCdTrackStep(e.env, ctx.actorIdx, old(Now(e, ctx)), r, Now(e, ctx))
  {
    var track :- ctx.ReadByte();
    e.effects := e.effects + [LifeEngine.PlayCdTrack(track as int)];
    r := Ok(Continue);
  }

  ghost predicate MidiOffStep(env: Env, idx: nat, m: Machine, r: Result<Signal>, m': Machine)
    requires Fits(env, idx, m)
  {
    && m'.s == m.s
    && r == Ok(Continue) && m'.pos == m.pos
    && m'.w == m.w.(effects := m.w.effects + [StopMidi])
  }

  method MidiOff(e: Engine, ctx: Context) returns (r: Result<Signal>)
    requires e.Ready(ctx)
    modifies e
    ensures Stepped(e, ctx) && MidiOffStep(e.env, ctx.actorIdx, old(Now(e, ctx)), r, Now(e, ctx))
  {
    e.effects := e.effects + [StopMidi];
    r := Ok(Continue);
  }

  /** PLAY_FLA: read a NUL-terminated movie name of at most 63 characters
      and play it. */
  ghost predicate PlayFlaStep(env: Env, idx: nat, m: Machine, r: Result<Signal>, m': Machine)
    requires Fits(env, idx, m)
  {
    var s, p := m.s, m.pos;
    var k := NulDistance(s, p);
    && m'.s == m.s
    && (r.Ok? <==> k < 64 && p + k < |s|)
    && (r.Ok? ==>
          && r.value == Continue && m'.pos == p + k + 1
          && m'.w == m.w.(effects := m.w.effects + [PlayMovie(s[p..p + k])]))
  }

  method PlayFla(e: Engine, ctx: Context) returns (r: Result<Signal>)
    requires e.Ready(ctx)
    modifies e, ctx
    ensures Stepped(e, ctx) && PlayFlaStep(e.env, ctx.actorIdx, old(Now(e, ctx)), r, Now(e, ctx))
  {
    ghost var s, p := ctx.script[..], ctx.pos;
    var movie: seq<byte> := [];
    while true
      invariant ctx.pos == p + |movie| <= |s| && |movie| < 64
      invariant movie == s[p..ctx.pos]
      invariant forall j :: p <= j < ctx.pos ==> s[j] != 0
      invariant e.State() == old(e.State()) && e.Bound(ctx) && ctx.opcodePos == old(ctx.opcodePos)
      decreases 64 - |movie|
    {
      NulDistanceAt(s, p, ctx.pos);
      var c :- ctx.ReadByte();
      if c == 0 {
        break;
      }
      movie := movie + [c];
      if |movie| >= 64 {
        NulDistanceAt(s, p, ctx.pos);
        return Err(FlaNameTooLong);
      }
    }
    e.effects := e.effects + [PlayMovie(movie)];
    r := Ok(Continue);
  }

  // ---------------------------------------------------------------------------
  // Game state

  ghost predicate IncChapterStep(env: Env, idx: nat, m: Machine, r: Result<Signal>, m': Machine)
    requires Fits(env, idx, m)
  {
    && m'.s == m.s
    && r == Ok(Continue) && m'.pos == m.pos
    && m'.w == m.w.(game := m.w.game.(chapter := m.w.game.chapter + 1))
  }

  method IncChapter(e: Engine, ctx: Context) returns (r: Result<Signal>)
    requires e.Ready(ctx)
    modifies e
    ensures Stepped(e, ctx) && IncChapterStep(e.env, ctx.actorIdx, old(Now(e, ctx)), r, Now(e, ctx))
  {
    e.game := e.game.(chapter := e.game.chapter + 1);
    r := Ok(Continue);
  }

  ghost predicate FoundObjectStep(env: Env, idx: nat, m: Machine, r: Result<Signal>, m': Machine)
    requires Fits(env, idx, m)
  {
    var s, p := m.s, m.pos;
    && m'.s == m.s
    && (r.Ok? <==> Has(s, p, 1))
    && (r.Ok? ==>
          && r.value == Continue && m'.pos == p + 1
          && m'.w == m.w.(effects := m.w.effects + [FoundItem(s[p] as int)]))
  }

  method FoundObject(e: Engine, ctx: Context) returns (r: Result<Signal>)
    requires e.Ready(ctx)
    modifies e, ctx
    ensures Stepped(e, ctx) && FoundObjectStep(e.env, ctx.actorIdx, old(Now(e, ctx)), r, Now(e, ctx))
  {
    var item :- ctx.ReadByte();
    e.effects := e.effects + [FoundItem(item as int)];
    r := Ok(Continue);
  }

  /** SET_USED_INVENTORY: flag an item as used, for items below the keypad
      only. */
  ghost predicate SetUsedInventoryStep(env: Env, idx: nat, m: Machine, r: Result<Signal>, m': Machine)
    requires Fits(env, idx, m)
  {
    var s, p := m.s, m.pos;
    && m'.s == m.s
    && (r.Ok? <==> Has(s, p, 1))
    && (r.Ok? && (s[p] as int) < env.cfg.keypadItem ==>
          && r.value == Continue && m'.pos == p + 1
          && m'.w == m.w.(game := m.w.game.(
               inventoryFlags := m.w.game.inventoryFlags[s[p] as int := 1])))
    && (r.Ok? && (s[p] as int) >= env.cfg.keypadItem ==>
          r.value == Continue && m'.pos == p + 1 && m'.w == m.w)
  }

  method SetUsedInventory(e: Engine, ctx: Context) returns (r: Result<Signal>)
    requires e.Ready(ctx)
    modifies e, ctx
    ensures Stepped(e, ctx) && SetUsedInventoryStep(e.env, ctx.actorIdx, old(Now(e, ctx)), r, Now(e, ctx))
  {
    var item :- ctx.ReadByte();
    if (item as int) < e.env.cfg.keypadItem {
      e.game := e.game.(inventoryFlags := e.game.inventoryFlags[item as int := 1]);
    }
    r := Ok(Continue);
  }

  /** USE_ONE_LITTLE_KEY: spend a key and show the key sprite. */
  ghost predicate UseOneLittleKeyStep(env: Env, idx: nat, m: Machine, r: Result<Signal>, m': Machine)
    requires Fits(env, idx, m)
  {
    && m'.s == m.s
    && r == Ok(Continue) && m'.pos == m.pos
    && m'.w == m.w.(
         game := m.w.game.(numKeys := env.addCounter(Keys, m.w.game.numKeys, -1)),
         overlays := env.addOverlay(m.w.overlays, OvSprite, env.cfg.spriteKey, 0))
  }

  method UseOneLittleKey(e: Engine, ctx: Context) returns (r: Result<Signal>)
    requires e.Ready(ctx)
    modifies e
    ensures Stepped(e, ctx) && UseOneLittleKeyStep(e.env, ctx.actorIdx, old(Now(e, ctx)), r, Now(e, ctx))
  {
    e.game := e.game.(numKeys := e.env.addCounter(Keys, e.game.numKeys, -1));
    e.overlays := e.env.addOverlay(e.overlays, OvSprite, e.env.cfg.spriteKey, 0);
    r := Ok(Continue);
  }

  /** GIVE_GOLD_PIECES: pay the amount and show the money sprite; then the
      first live money overlay is restarted to count to the new amount, and
      when there is none a new one counting from the old amount is added. */
  ghost predicate GiveGoldPiecesStep(env: Env, idx: nat, m: Machine, r: Result<Signal>, m': Machine)
    requires Fits(env, idx, m)
  {
    var s, p, g := m.s, m.pos, m.w.game;
    var table := env.addOverlay(m.w.overlays, OvSprite, env.cfg.spriteKashes, 0);
    var i := FirstLiveRange(table);
    && m'.s == m.s
    && (r.Ok? <==> Has(s, p, 2))
    && (r.Ok? ==>
          var kashes := env.addCounter(Kashes, g.numKashes, -S16(s, p));
          && r.value == Continue && m'.pos == p + 2
          && m'.w == m.w.(
               game := g.(numKashes := kashes),
               overlays := if i < |table| then table[i := RangeRestarted(env, table[i], kashes, m.w.lbaTime)]
                           else env.addOverlay(table, OvNumberRange, Int16(g.numKashes), kashes)))
  }

  method GiveGoldPieces(e: Engine, ctx: Context) returns (r: Result<Signal>)
    requires e.Ready(ctx)
    modifies e, ctx
    ensures Stepped(e, ctx) && GiveGoldPiecesStep(e.env, ctx.actorIdx, old(Now(e, ctx)), r, Now(e, ctx))
  {
    var oldNumKashes := Int16(e.game.numKashes);
    var hideRange := false;
    var kashes :- ctx.ReadSint16LE();
    e.game := e.game.(numKashes := e.env.addCounter(Kashes, e.game.numKashes, -kashes));
    e.overlays := e.env.addOverlay(e.overlays, OvSprite, e.env.cfg.spriteKashes, 0);
    ghost var before := e.State();
    var i := 0;
    while i < |e.overlays|
      invariant 0 <= i <= |e.overlays|
      invariant e.State() == before && !hideRange
      invariant forall j :: 0 <= j < i ==> !IsLiveRange(e.overlays[j])
    {
      var overlay := e.overlays[i];
      if IsLiveRange(overlay) {
        e.overlays := e.overlays[i := RangeRestarted(e.env, overlay, e.game.numKashes, e.lbaTime)];
        hideRange := true;
        break;
      }
      i := i + 1;
    }
    if !hideRange {
      e.overlays := e.env.addOverlay(e.overlays, OvNumberRange, oldNumKashes, e.game.numKashes);
    }
    r := Ok(Continue);
  }

  ghost predicate SetMagicLevelStep(env: Env, idx: nat, m: Machine, r: Result<Signal>, m': Machine)
    requires Fits(env, idx, m)
  {
    var s, p := m.s, m.pos;
    && m'.s == m.s
    && (r.Ok? <==> Has(s, p, 1))
    && (r.Ok? ==>
          && r.value == Continue && m'.pos == p + 1
          && m'.w == m.w.(game := m.w.game.(magicLevel := s[p] as int),
               effects := m.w.effects + [SetMaxMagicPoints]))
  }

  method SetMagicLevel(e: Engine, ctx: Context) returns (r: Result<Signal>)
    requires e.Ready(ctx)
    modifies e, ctx
    ensures Stepped(e, ctx) && SetMagicLevelStep(e.env, ctx.actorIdx, old(Now(e, ctx)), r, Now(e, ctx))
  {
    var level :- ctx.ReadByte();
    e.game := e.game.(magicLevel := level as int);
    e.effects := e.effects + [SetMaxMagicPoints];
    r := Ok(Continue);
  }

  ghost predicate SubMagicPointStep(env: Env, idx: nat, m: Machine, r: Result<Signal>, m': Machine)
    requires Fits(env, idx, m)
  {
    var s, p := m.s, m.pos;
    && m'.s == m.s
    && (r.Ok? <==> Has(s, p, 1))
    && (r.Ok? ==>
          && r.value == Continue && m'.pos == p + 1
          && m'.w == m.w.(game := m.w.game.(
               magicPoints := env.addCounter(MagicPoints, m.w.game.magicPoints, -(s[p] as int)))))
  }

  method SubMagicPoint(e: Engine, ctx: Context) returns (r: Result<Signal>)
    requires e.Ready(ctx)
    modifies e, ctx
    ensures Stepped(e, ctx) && SubMagicPointStep(e.env, ctx.actorIdx, old(Now(e, ctx)), r, Now(e, ctx))
  {
    var points :- ctx.ReadByte();
    e.game := e.game.(magicPoints := e.env.addCounter(MagicPoints, e.game.magicPoints, -(points as int)));
    r := Ok(Continue);
  }

  /** ADD_FUEL (sign 1) and SUB_FUEL (sign -1). */
  ghost predicate FuelStep(env: Env, idx: nat, sign: int, m: Machine, r: Result<Signal>, m': Machine)
    requires Fits(env, idx, m)
  {
    var s, p := m.s, m.pos;
    && m'.s == m.s
    && (r.Ok? <==> Has(s, p, 1))
    && (r.Ok? ==>
          && r.value == Continue && m'.pos == p + 1
          && m'.w == m.w.(game := m.w.game.(
               numGas := env.addCounter(Gas, m.w.game.numGas, sign * s[p] as int))))
  }

  method Fuel(e: Engine, ctx: Context, sign: int) returns (r: Result<Signal>)
    requires e.Ready(ctx) && sign in {-1, 1}
    modifies e, ctx
    ensures Stepped(e, ctx) && FuelStep(e.env, ctx.actorIdx, sign, old(Now(e, ctx)), r, Now(e, ctx))
  {
    var value :- ctx.ReadByte();
    e.game := e.game.(numGas := e.env.addCounter(Gas, e.game.numGas, sign * value as int));
    r := Ok(Continue);
  }

  ghost predicate IncCloverBoxStep(env: Env, idx: nat, m: Machine, r: Result<Signal>, m': Machine)
    requires Fits(env, idx, m)
  {
    && m'.s == m.s
    && r == Ok(Continue) && m'.pos == m.pos
    && m'.w == m.w.(effects := m.w.effects + [AddLeafBoxes(1)])
  }

  method IncCloverBox(e: Engine, ctx: Context) returns (r: Result<Signal>)
    requires e.Ready(ctx)
    modifies e
    ensures Stepped(e, ctx) && IncCloverBoxStep(e.env, ctx.actorIdx, old(Now(e, ctx)), r, Now(e, ctx))
  {
    e.effects := e.effects + [AddLeafBoxes(1)];
    r := Ok(Continue);
  }

  /** FULL_POINT: the hero's life and magic points are refilled. */
  ghost predicate FullPointStep(env: Env, idx: nat, m: Machine, r: Result<Signal>, m': Machine)
    requires Fits(env, idx, m)
  {
    && m'.s == m.s
    && r == Ok(Continue) && m'.pos == m.pos
    && m'.w == m.w.(
         actors := m.w.actors[0 := m.w.actors[0].(life := env.cfg.actorMaxLife)],
         effects := m.w.effects + [SetMaxMagicPoints])
  }

  method FullPoint(e: Engine, ctx: Context) returns (r: Result<Signal>)
    requires e.Ready(ctx)
    modifies e
    ensures Stepped(e, ctx) && FullPointStep(e.env, ctx.actorIdx, old(Now(e, ctx)), r, Now(e, ctx))
  {
    e.actors := e.actors[0 := e.actors[0].(life := e.env.cfg.actorMaxLife)];
    e.effects := e.effects + [SetMaxMagicPoints];
    r := Ok(Continue);
  }
}
