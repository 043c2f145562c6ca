/** The state the life-script interpreter works on: the engine with its scene,
    game state and actor table, the per-run script context with its seekable
    cursor, and the two-stage condition evaluator. */
module LifeEngine {
  import opened Bytes
  import opened LifeTypes

  // ---------------------------------------------------------------------------
  // Records owned by the engine's subsystems

  /** Game-wide state: flags, inventory and counters. */
  datatype GameState = GameState(
    gameFlags: map<int, int>,      // absent flags read as 0
    inventoryFlags: map<int, int>, // absent entries read as 0
    items: set<int>,               // inventory items the hero holds
    numKeys: int,
    numKashes: int,
    numGas: int,
    magicPoints: int,
    magicLevel: int,
    chapter: int,
    choiceAnswer: int,
    choices: seq<int>)             // the pending choice list; its length is _numChoices

  /** State of the current scene (cube). */
  datatype SceneState = SceneState(
    sceneFlags: map<int, int>,     // absent flags read as 0
    tracks: seq<Vec3>,             // the scene's track points
    currentScene: int,
    needChangeScene: int,
    heroPositionIsScene: bool,
    followedActor: int,            // the actor the camera follows
    talkingActor: int,
    mecaPenguin: int,
    holomapTrajectory: int,
    newHeroPosX: int,
    enhancements: bool,
    gridTileRendering: bool)

  datatype LoopState = LoopContinue | LoopFinished | LoopReturnToMenu

  datatype OverlayKind = OvSprite | OvNumber | OvNumberRange | OvInventoryItem | OvText

  /** An entry of the fixed-size overlay table; info0 == -1 marks a free slot. */
  datatype Overlay = Overlay(kind: OverlayKind, info0: int, info1: int, lifeTime: int)

  /** The counters whose update goes through the game-state service. */
  datatype Counter = Keys | Kashes | Gas | MagicPoints

  /** Requests to services outside the interpreter, in the order issued. */
  datatype Effect =
    | InitModel(body: int, actor: int)
    | InitAnim(anim: int, actor: int)
    | Dialogue(speaker: int, text: int, bubble: bool, color: int, fullScreen: bool)
    | CenterCamera(actor: int)
    | SetHeroBehaviour(behaviour: int)
    | ProcessCarrier(actor: int)
    | FoundItem(item: int)
    | ExtraBonus(actor: int)
    | Zoom(zoomIn: bool)
    | ExitSceneryView
    | SetMaxMagicPoints
    | SetMagicPoints(points: int)
    | SetLeafs(leafs: int)
    | AddLeafBoxes(boxes: int)
    | Hit(hitter: int, target: int, strength: int, angle: int)
    | PlayMovie(name: seq<byte>)
    | PlayMidi(index: int)
    | StopMidi
    | PlayCdTrack(track: int)
    | AskChoice(speaker: int, question: int, choices: seq<int>, bubble: bool)
    | HolomapPosition(location: int, add: bool)
    | InitCeilingGrid(index: int)
    | CreateGridMap
    | SayMessage(speaker: int, text: int)
    | ClearRealAngle(actor: int)
    | Fade(opcode: byte)
    | Explode(at: Vec3)
    | SetPalette(dark: bool)
    | SendellMessage
    | InitProjections
    | Projection3D
    | DrawText(text: int, y: int)
    | ClearText
    | AutoSave

  /** Services the interpreter calls but does not define: geometry, the
      game-state counter updates, the overlay table's slot allocation and
      averaging, the player's answer to a choice, and the constants of the
      engine's headers. */
  datatype Env = Env(
    cfg: Config,
    screenHeight: int,
    distance2D: (Vec3, Vec3) -> int,
    distance3D: (Vec3, Vec3) -> int,
    angleAndDistance: (Vec3, Vec3) -> (int, int),
    clampAngle: int -> int,
    toAngle: int -> int,
    addCounter: (Counter, int, int) -> int,
    averageValue: (int, int, int, int) -> int,
    addOverlay: (seq<Overlay>, OverlayKind, int, int) -> seq<Overlay>,  // table, kind, info0, info1
    playerChoice: (int, seq<int>) -> int)

  /** Everything the interpreter can read or change, as one value. */
  datatype World = World(
    actors: seq<Actor>,
    game: GameState,
    scene: SceneState,
    currentScriptValue: int,
    targetActorDistance: int,
    heroBehaviour: int,
    previousHeroBehaviour: int,
    previousHeroAngle: int,
    showBubble: bool,
    alternatePalette: bool,
    textYPos: int,
    ceilingGridIdx: int,
    useCeilingGrid: int,
    loopState: LoopState,
    overlays: seq<Overlay>,
    lbaTime: int,
    loopInventoryItem: int,
    zoneAction: bool,
    effects: seq<Effect>)

  function Lookup(m: map<int, int>, k: int): int {
    if k in m then m[k] else 0
  }

  // ---------------------------------------------------------------------------
  // The engine

  class Engine {
    const env: Env
    var actors: seq<Actor>
    var game: GameState
    var scene: SceneState
    var currentScriptValue: int
    var targetActorDistance: int
    var heroBehaviour: int
    var previousHeroBehaviour: int
    var previousHeroAngle: int
    var showBubble: bool
    var alternatePalette: bool
    var textYPos: int
    var ceilingGridIdx: int
    var useCeilingGrid: int
    var loopState: LoopState
    var overlays: seq<Overlay>
    var lbaTime: int
    var loopInventoryItem: int
    var zoneAction: bool
    var effects: seq<Effect>

    function State(): World
      reads this
    {
      World(actors, game, scene, currentScriptValue, targetActorDistance, heroBehaviour,
            previousHeroBehaviour, previousHeroAngle, showBubble, alternatePalette, textYPos,
            ceilingGridIdx, useCeilingGrid, loopState, overlays, lbaTime, loopInventoryItem,
            zoneAction, effects)
    }

    /** The engine and a run's context belong together: the context's actor
        exists (as does the hero, actor 0), the context reads that actor's
        buffer, and its cursor lies within the buffer. */
    ghost predicate Bound(ctx: Context)
      reads this, ctx
    {
      && env.cfg.Valid()
      && 0 < |actors|
      && ctx.actorIdx < |actors|
      && actors[ctx.actorIdx].lifeScript == ctx.script
      && 0 <= ctx.pos <= ctx.script.Length
      && 0 <= ctx.opcodePos <= ctx.script.Length
    }

    /** Bound, and the opcode byte at opcodePos has just been read. */
    ghost predicate Ready(ctx: Context)
      reads this, ctx
    {
      Bound(ctx) && ctx.pos == ctx.opcodePos + 1
    }

    constructor (env: Env, w: World)
      ensures this.env == env && State() == w
    {
      this.env := env;
      actors, game, scene := w.actors, w.game, w.scene;
      currentScriptValue, targetActorDistance := w.currentScriptValue, w.targetActorDistance;
      heroBehaviour, previousHeroBehaviour, previousHeroAngle := w.heroBehaviour, w.previousHeroBehaviour, w.previousHeroAngle;
      showBubble, alternatePalette, textYPos := w.showBubble, w.alternatePalette, w.textYPos;
      ceilingGridIdx, useCeilingGrid, loopState := w.ceilingGridIdx, w.useCeilingGrid, w.loopState;
      overlays, lbaTime, loopInventoryItem := w.overlays, w.lbaTime, w.loopInventoryItem;
      zoneAction, effects := w.zoneAction, w.effects;
    }
  }

  /** The byte at the context's opcode offset is `op`. */
  ghost predicate Executing(ctx: Context, op: byte)
    reads ctx, ctx.script
  {
    0 <= ctx.opcodePos < ctx.script.Length && ctx.script[ctx.opcodePos] == op
  }

  /** A snapshot of a run: the world, the bytes of the script buffer, the
      cursor and the opcode offset. Handlers are specified as relations
      between the snapshot before and the snapshot after. */
  datatype Machine = Machine(w: World, s: seq<byte>, pos: int, opcodePos: int)

  function Now(e: Engine, ctx: Context): Machine
    reads e, ctx, ctx.script
  {
    Machine(e.State(), ctx.script[..], ctx.pos, ctx.opcodePos)
  }

  /** The snapshot of an engine that is Ready: a handler may run on it. */
  ghost predicate Fits(env: Env, idx: nat, m: Machine) {
    && env.cfg.Valid()
    && 0 < |m.w.actors| && idx < |m.w.actors|
    && 0 <= m.opcodePos && m.pos == m.opcodePos + 1 && m.pos <= |m.s|
  }

  // ---------------------------------------------------------------------------
  // The script context: a seekable read/write cursor over one actor's buffer

  class Context {
    const actorIdx: nat
    const script: array<byte>
    var pos: int        // the stream position
    var opcodePos: int  // offset of the opcode byte being executed (opcodePtr)

    constructor (actorIdx: nat, script: array<byte>)
      ensures this.actorIdx == actorIdx && this.script == script
      ensures pos == 0 && opcodePos == 0
    {
      this.actorIdx := actorIdx;
      this.script := script;
      pos, opcodePos := 0, 0;
    }

    method ReadByte() returns (r: Result<byte>)
      modifies this
      ensures opcodePos == old(opcodePos)
      ensures r.Ok? <==> 0 <= old(pos) < script.Length
      ensures r.Ok? ==> r.value == script[old(pos)] && pos == old(pos) + 1
      ensures r.Err? ==> pos == old(pos) && r.error == ReadPastEnd(old(pos))
    {
      if pos < 0 || pos >= script.Length {
        return Err(ReadPastEnd(pos));
      }
      r := Ok(script[pos]);
      pos := pos + 1;
    }

    method ReadSint16LE() returns (r: Result<int>)
      modifies this
      ensures opcodePos == old(opcodePos)
      ensures r.Ok? <==> 0 <= old(pos) && old(pos) + 2 <= script.Length
      ensures r.Ok? ==> r.value == S16(script[..], old(pos)) && pos == old(pos) + 2
      ensures r.Err? ==> pos == old(pos)
    {
      if pos < 0 || pos + 2 > script.Length {
        return Err(ReadPastEnd(pos));
      }
      r := Ok(Sint16LE(script[pos], script[pos + 1]));
      pos := pos + 2;
    }

    /** Moves the cursor to an absolute offset (seek from the start). */
    method Seek(target: int) returns (r: Result<()>)
      modifies this
      ensures opcodePos == old(opcodePos)
      ensures r.Ok? <==> 0 <= target <= script.Length
      ensures pos == if r.Ok? then target else old(pos)
      ensures r.Err? ==> r.error == SeekOutOfRange(target)
    {
      if target < 0 || target > script.Length {
        return Err(SeekOutOfRange(target));
      }
      pos := target;
      r := Ok(());
    }

    /** Reads the signed 16-bit offset at the cursor and seeks to it: the
        jump every branching instruction takes. */
    method JumpToOffset() returns (r: Result<()>)
      modifies this
      ensures opcodePos == old(opcodePos)
      ensures r.Ok? <==> Jump(script[..], old(pos)).Ok?
      ensures r.Ok? ==> pos == Jump(script[..], old(pos)).value
      ensures 0 <= old(pos) <= script.Length ==> 0 <= pos <= script.Length
    {
      var offset :- ReadSint16LE();
      r := Seek(offset);
    }

    /** Moves the cursor by `n` bytes (seek from the current position). */
    method Skip(n: int) returns (r: Result<()>)
      modifies this
      ensures opcodePos == old(opcodePos)
      ensures r.Ok? <==> 0 <= old(pos) + n <= script.Length
      ensures pos == if r.Ok? then old(pos) + n else old(pos)
      ensures r.Err? ==> r.error == SeekOutOfRange(old(pos) + n)
    {
      r := Seek(pos + n);
    }

    /** Overwrites the opcode byte of the instruction being executed. */
    method SetOpcode(op: byte)
      requires 0 <= opcodePos < script.Length
      modifies script
      ensures script[..] == old(script[..])[opcodePos := op]
    {
      script[opcodePos] := op;
    }

    /** Writes one byte at the cursor and advances it. */
    method WriteByte(b: byte) returns (r: Result<()>)
      modifies this, script
      ensures opcodePos == old(opcodePos)
      ensures r.Ok? <==> 0 <= old(pos) < script.Length
      ensures r.Ok? ==> script[..] == old(script[..])[old(pos) := b] && pos == old(pos) + 1
      ensures r.Err? ==> script[..] == old(script[..]) && pos == old(pos)
    {
      if pos < 0 || pos >= script.Length {
        return Err(ReadPastEnd(pos));
      }
      script[pos] := b;
      pos := pos + 1;
      r := Ok(());
    }

    method UpdateOpcodePos()
      modifies this
      ensures opcodePos == pos && pos == old(pos)
    {
      opcodePos := pos;
    }
  }

  // ---------------------------------------------------------------------------
  // Reading operands out of a buffer, as values

  ghost predicate Has(s: seq<byte>, p: int, n: int) {
    0 <= p && p + n <= |s|
  }

  function S16(s: seq<byte>, p: int): int
    requires 0 <= p && p + 2 <= |s|
  {
    Sint16LE(s[p], s[p + 1])
  }

  /** Seeking to the absolute offset stored at `q`. */
  function Jump(s: seq<byte>, q: int): (r: Result<int>)
    ensures r.Ok? <==> Has(s, q, 2) && 0 <= S16(s, q) <= |s|
    ensures r.Ok? ==> r.value == S16(s, q)
  {
    if !(0 <= q && q + 2 <= |s|) then Err(ReadPastEnd(q))
    else if 0 <= S16(s, q) <= |s| then Ok(S16(s, q))
    else Err(SeekOutOfRange(S16(s, q)))
  }

  /** Skipping the two offset bytes stored at `q`. */
  function Fall(s: seq<byte>, q: int): (r: Result<int>)
    ensures r.Ok? <==> 0 <= q + 2 <= |s|
    ensures r.Ok? ==> r.value == q + 2
  {
    if 0 <= q + 2 <= |s| then Ok(q + 2) else Err(SeekOutOfRange(q + 2))
  }

  /** The comparison literal of the given width at `p`: an unsigned byte or a
      signed little-endian 16-bit value. */
  function Literal(s: seq<byte>, p: int, width: int): int
    requires width in {1, 2} && 0 <= p && p + width <= |s|
  {
    if width == 1 then s[p] as int else S16(s, p)
  }

  // ---------------------------------------------------------------------------
  // The condition evaluator

  function GetActor(w: World, idx: int): Result<Actor> {
    if 0 <= idx < |w.actors| then Ok(w.actors[idx]) else Err(BadActor(idx))
  }

  predicate InventoryDisabled(env: Env, w: World) {
    Lookup(w.game.gameFlags, env.cfg.inventoryDisabledFlag) != 0
  }

  /** Distance the CONE_VIEW test leaves in the movement state: the clamped
      distance for a target less than 1500 away in height, the sentinel
      otherwise; and the angle towards the target (0 when too far in height). */
  function ConeMeasure(env: Env, self: Actor, target: Actor): (r: (int, int))
    requires env.cfg.Valid()
    ensures Abs(r.1) <= env.cfg.maxTargetDistance
    ensures Abs(target.pos.y - self.pos.y) >= 1500 ==> r == (0, env.cfg.maxTargetDistance)
  {
    if Abs(target.pos.y - self.pos.y) < 1500 then
      var (angle, distance) := env.angleAndDistance(self.pos, target.pos);
      (angle, ClampDistance(env.cfg.maxTargetDistance, distance))
    else (0, env.cfg.maxTargetDistance)
  }

  /** Value of CONE_VIEW: the sentinel for a dead target; otherwise the
      measured distance when the angle test is skipped or passes, the sentinel
      when it fails. */
  function ConeValue(env: Env, w: World, self: Actor, targetIdx: int, target: Actor): (r: int)
    requires env.cfg.Valid()
    ensures Abs(r) <= env.cfg.maxTargetDistance
    ensures target.isDead ==> r == env.cfg.maxTargetDistance
    ensures r == env.cfg.maxTargetDistance || r == ConeMeasure(env, self, target).1
  {
    var cfg := env.cfg;
    if target.isDead then cfg.maxTargetDistance
    else
      var (angle, distance) := ConeMeasure(env, self, target);
      if ConeChecksAngle(targetIdx == 0, w.heroBehaviour, cfg.behaviourDiscrete) then
        var heroAngle := env.clampAngle(self.angle + cfg.angle360 + cfg.angle45 - angle + cfg.angle360);
        if Abs(heroAngle) <= cfg.angle90 then distance else cfg.maxTargetDistance
      else distance
  }

  /** Value of FLAG_GAME: the flag itself, except that while the inventory is
      disabled the flags below MaxInventoryItems read as 0, the
      inventory-disabled flag reading as 1. */
  function FlagGameValue(env: Env, w: World, flag: int): (r: int)
    ensures !InventoryDisabled(env, w) ==> r == Lookup(w.game.gameFlags, flag)
    ensures flag >= env.cfg.maxInventoryItems ==> r == Lookup(w.game.gameFlags, flag)
  {
    var disabled := InventoryDisabled(env, w);
    if !disabled || flag >= env.cfg.maxInventoryItems then Lookup(w.game.gameFlags, flag)
    else if flag == env.cfg.inventoryDisabledFlag then 1
    else 0
  }

  /** Value of USE_INVENTORY: 1 when the item is being used this frame or is
      both flagged in use and held, 0 otherwise or while the inventory is off. */
  function UseInventoryValue(env: Env, w: World, item: int): (r: int)
    ensures r in {0, 1}
    ensures InventoryDisabled(env, w) ==> r == 0
    ensures r == 1 <==> (!InventoryDisabled(env, w) &&
      (item == w.loopInventoryItem || (Lookup(w.game.inventoryFlags, item) == 1 && item in w.game.items)))
  {
    if InventoryDisabled(env, w) then 0
    else if item == w.loopInventoryItem then 1
    else if Lookup(w.game.inventoryFlags, item) == 1 && item in w.game.items then 1
    else 0
  }

  /** The "current script value" a condition code measures, for the running
      actor `self` and the operand `arg` (an actor, flag or item index). */
  function Measure(env: Env, w: World, selfIdx: nat, code: byte, arg: int): (r: Result<int>)
    requires env.cfg.Valid() && selfIdx < |w.actors|
    ensures r.Err? <==> (code > kcCDROM ||
      (code in {kcCOL_OBJ, kcDISTANCE, kcZONE_OBJ, kcBODY_OBJ, kcANIM_OBJ, kcL_TRACK_OBJ,
                kcCONE_VIEW, kcLIFE_POINT_OBJ, kcDISTANCE_3D} && !(0 <= arg < |w.actors|)))
    ensures r.Ok? && code in {kcDISTANCE, kcCONE_VIEW, kcDISTANCE_3D} ==> Abs(r.value) <= env.cfg.maxTargetDistance
    ensures r.Ok? && code in {kcBODY, kcBODY_OBJ, kcANIM, kcANIM_OBJ, kcBEHAVIOUR, kcCHOICE} ==> -0x8000 <= r.value < 0x8000
    ensures r.Ok? && code == kcDISTANCE ==>
      var self := w.actors[selfIdx]; var t := w.actors[arg];
      r.value == DistanceValue(env.cfg.maxTargetDistance, t.isDead, self.pos.y - t.pos.y, env.distance2D(self.pos, t.pos))
    ensures r.Ok? && code == kcDISTANCE_3D ==>
      var self := w.actors[selfIdx]; var t := w.actors[arg];
      r.value == Distance3DValue(env.cfg.maxTargetDistance, t.isDead, env.distance3D(self.pos, t.pos))
    ensures r.Ok? && code == kcCONE_VIEW ==> r.value == ConeValue(env, w, w.actors[selfIdx], arg, w.actors[arg])
    ensures r.Ok? && code == kcFLAG_GAME ==> r.value == FlagGameValue(env, w, arg)
    ensures r.Ok? && code == kcUSE_INVENTORY ==> r.value == UseInventoryValue(env, w, arg)
    ensures r.Ok? && code == kcCOL ==> r.value == if w.actors[selfIdx].life <= 0 then -1 else w.actors[selfIdx].collision
    ensures r.Ok? && code == kcLIFE_POINT ==> r.value == w.actors[selfIdx].life
    ensures r.Ok? && code == kcLIFE_POINT_OBJ ==> r.value == w.actors[arg].life
  {
    var cfg := env.cfg;
    var self := w.actors[selfIdx];
    match code
    case 0 => Ok(if self.life <= 0 then -1 else self.collision)
    case 1 =>
      var t :- GetActor(w, arg);
      Ok(if t.life <= 0 then -1 else t.collision)
    case 2 =>
      var t :- GetActor(w, arg);
      Ok(DistanceValue(cfg.maxTargetDistance, t.isDead, self.pos.y - t.pos.y, env.distance2D(self.pos, t.pos)))
    case 3 => Ok(self.zone)
    case 4 =>
      var t :- GetActor(w, arg);
      Ok(t.zone)
    case 5 => Ok(Int16(self.body))
    case 6 =>
      var t :- GetActor(w, arg);
      Ok(Int16(t.body))
    case 7 => Ok(Int16(self.anim))
    case 8 =>
      var t :- GetActor(w, arg);
      Ok(Int16(t.anim))
    case 9 => Ok(self.labelIdx)
    case 10 =>
      var t :- GetActor(w, arg);
      Ok(t.labelIdx)
    case 11 => Ok(Lookup(w.scene.sceneFlags, arg))
    case 12 =>
      var t :- GetActor(w, arg);
      Ok(ConeValue(env, w, self, arg, t))
    case 13 => Ok(self.hitBy)
    case 14 => Ok(if w.zoneAction then 1 else 0)
    case 15 => Ok(FlagGameValue(env, w, arg))
    case 16 => Ok(self.life)
    case 17 =>
      var t :- GetActor(w, arg);
      Ok(t.life)
    case 18 => Ok(w.game.numKeys)
    case 19 => Ok(w.game.numKashes)
    case 20 => Ok(Int16(w.heroBehaviour))
    case 21 => Ok(w.game.chapter)
    case 22 =>
      var t :- GetActor(w, arg);
      Ok(Distance3DValue(cfg.maxTargetDistance, t.isDead, env.distance3D(self.pos, t.pos)))
    case 23 => Ok(w.game.magicLevel)
    case 24 => Ok(w.game.magicPoints)
    case 25 => Ok(UseInventoryValue(env, w, arg))
    case 26 => Ok(Int16(w.game.choiceAnswer))
    case 27 => Ok(w.game.numGas)
    case 28 => Ok(self.carryBy)
    case 29 => Ok(1)
    case _ => Err(BadCondition(code))
  }

  /** The world after a condition has been measured: the current script value
      is set; CONE_VIEW on a living target also leaves its measured distance
      in the movement state; USE_INVENTORY that holds adds the item's overlay. */
  function AfterMeasure(env: Env, w: World, selfIdx: nat, code: byte, arg: int, value: int): (w': World)
    requires env.cfg.Valid() && selfIdx < |w.actors|
    requires code == kcCONE_VIEW ==> 0 <= arg < |w.actors|
    ensures w'.(currentScriptValue := w.currentScriptValue, targetActorDistance := w.targetActorDistance,
                overlays := w.overlays) == w
    ensures w'.currentScriptValue == value
  {
    var distance :=
      if code == kcCONE_VIEW && !w.actors[arg].isDead then ConeMeasure(env, w.actors[selfIdx], w.actors[arg]).1
      else w.targetActorDistance;
    var overlays :=
      if code == kcUSE_INVENTORY && !InventoryDisabled(env, w) && value == 1 then env.addOverlay(w.overlays, OvInventoryItem, arg, 0)
      else w.overlays;
    w.(currentScriptValue := value, targetActorDistance := distance, overlays := overlays)
  }

  /** The condition code at `p` and its operand as the buffer holds them: the
      code, the operand (0 when the code takes none), the literal width the
      code announces and the position after the code and its operand. */
  function ConditionOperand(s: seq<byte>, p: int): (r: Result<(byte, int, int, int)>)
    ensures r.Ok? <==> Has(s, p, 1) && ConditionLayout(s[p]).Ok? && Has(s, p, 1 + ConditionLayout(s[p]).value.0)
    ensures r.Ok? ==> var (operands, width) := ConditionLayout(s[p]).value;
      && r.value.0 == s[p] && r.value.2 == width && r.value.3 == p + 1 + operands
      && r.value.1 == (if operands == 1 then s[p + 1] as int else 0)
    ensures Has(s, p, 1) && s[p] > kcCDROM ==> r == Err(BadCondition(s[p]))
  {
    if !(0 <= p < |s|) then Err(ReadPastEnd(p))
    else
      var code := s[p];
      var (operands, width) :- ConditionLayout(code);
      if operands == 1 && p + 1 >= |s| then Err(ReadPastEnd(p + 1))
      else Ok((code, if operands == 1 then s[p + 1] as int else 0, width, p + 1 + operands))
  }

  /** The condition stage read from the buffer `s` at `p`: the literal width it
      announces, the position after the code and its operand, and the world
      with the measured value set. */
  function Condition(env: Env, w: World, selfIdx: nat, s: seq<byte>, p: int): (r: Result<(int, int, World)>)
    requires env.cfg.Valid() && selfIdx < |w.actors|
    ensures r.Ok? ==> Has(s, p, 1) && ConditionLayout(s[p]).Ok?
    ensures r.Ok? ==> var (operands, width) := ConditionLayout(s[p]).value;
      r.value.0 == width && r.value.1 == p + 1 + operands
    ensures r.Ok? ==> r.value.2.actors == w.actors && r.value.2.game == w.game && r.value.2.scene == w.scene
    ensures Has(s, p, 1) && s[p] > kcCDROM ==> r == Err(BadCondition(s[p]))
    ensures !Has(s, p, 1) ==> r.Err?
  {
    var (code, arg, width, q) :- ConditionOperand(s, p);
    var value :- Measure(env, w, selfIdx, code, arg);
    Ok((width, q, AfterMeasure(env, w, selfIdx, code, arg, value)))
  }

  /** The operator stage read from `s` at `p`: whether the comparison holds
      and the position after the literal. */
  function Operator(current: int, s: seq<byte>, p: int, width: int): (r: Result<(bool, int)>)
    ensures r.Ok? <==> Has(s, p, 1) && width in {1, 2} && Has(s, p + 1, width)
    ensures r.Ok? ==> r.value.1 == p + 1 + width
    ensures r.Ok? ==> (r.value.0 <==> Compare(s[p], current, Literal(s, p + 1, width)))
    ensures r.Ok? && s[p] > kNotEqualTo ==> !r.value.0
  {
    if !(0 <= p < |s|) then Err(ReadPastEnd(p))
    else if width != 1 && width != 2 then Err(BadValueSize(width))
    else if p + 1 + width > |s| then Err(ReadPastEnd(p + 1))
    else Ok((Compare(s[p], current, Literal(s, p + 1, width)), p + 1 + width))
  }

  /** A whole test (condition, operator, literal) at `p`: whether it holds, the
      position of the branch offset that follows it, and the world after. */
  function Test(env: Env, w: World, selfIdx: nat, s: seq<byte>, p: int): (r: Result<(bool, int, World)>)
    requires env.cfg.Valid() && selfIdx < |w.actors|
    ensures r.Ok? ==> Condition(env, w, selfIdx, s, p).Ok?
    ensures r.Ok? ==> var (width, q, w') := Condition(env, w, selfIdx, s, p).value;
      Operator(w'.currentScriptValue, s, q, width) == Ok((r.value.0, r.value.1)) && r.value.2 == w'
    ensures r.Ok? ==> r.value.2.actors == w.actors && p + 3 <= r.value.1 <= p + 5
  {
    var (width, q, w') :- Condition(env, w, selfIdx, s, p);
    var (holds, q') :- Operator(w'.currentScriptValue, s, q, width);
    Ok((holds, q', w'))
  }

  // ---------------------------------------------------------------------------
  // The two evaluator stages on the stream

  /** The reads processLifeConditions starts with: the condition code and,
      when the code takes one, its operand byte. */
  method ReadConditionOperand(ctx: Context) returns (r: Result<(byte, int, int, int)>)
    requires 0 <= ctx.pos <= ctx.script.Length
    modifies ctx
    ensures ctx.opcodePos == old(ctx.opcodePos) && 0 <= ctx.pos <= ctx.script.Length
    ensures r == ConditionOperand(ctx.script[..], old(ctx.pos))
    ensures r.Ok? ==> ctx.pos == r.value.3
  {
    var code :- ctx.ReadByte();
    var layout := ConditionLayout(code);
    if layout.Err? {
      return Err(layout.error);
    }
    var (operands, width) := layout.value;
    var arg := 0;
    if operands == 1 {
      var b :- ctx.ReadByte();
      arg := b as int;
    }
    r := Ok((code, arg, width, ctx.pos));
  }

  /** processLifeConditions: reads the condition code and its operand, sets the
      current script value, and returns the literal width. */
  method ProcessLifeConditions(e: Engine, ctx: Context) returns (r: Result<int>)
    requires e.Bound(ctx)
    modifies e, ctx
    ensures e.Bound(ctx) && ctx.opcodePos == old(ctx.opcodePos)
    ensures var c := Condition(e.env, old(e.State()), ctx.actorIdx, ctx.script[..], old(ctx.pos));
      && (r.Ok? <==> c.Ok?)
      && (c.Ok? ==> r.value == c.value.0 && ctx.pos == c.value.1 && e.State() == c.value.2)
    ensures r.Err? ==> e.State() == old(e.State())
  {
    var read :- ReadConditionOperand(ctx);
    var (code, arg, width, _) := read;
    var w := e.State();
    var value := Measure(e.env, w, ctx.actorIdx, code, arg);
    if value.Err? {
      return Err(value.error);
    }
    var w' := AfterMeasure(e.env, w, ctx.actorIdx, code, arg, value.value);
    e.currentScriptValue := w'.currentScriptValue;
    e.targetActorDistance := w'.targetActorDistance;
    e.overlays := w'.overlays;
    r := Ok(width);
  }

  /** processLifeOperators: reads the operator code and the literal of the
      given width and compares the current script value with it. */
  method ProcessLifeOperators(e: Engine, ctx: Context, valueSize: int) returns (r: Result<bool>)
    modifies ctx
    ensures ctx.opcodePos == old(ctx.opcodePos)
    ensures 0 <= old(ctx.pos) <= ctx.script.Length ==> 0 <= ctx.pos <= ctx.script.Length
    ensures var o := Operator(e.currentScriptValue, ctx.script[..], old(ctx.pos), valueSize);
      && (r.Ok? <==> o.Ok?)
      && (o.Ok? ==> r.value == o.value.0 && ctx.pos == o.value.1)
  {
    var operatorCode :- ctx.ReadByte();
    var conditionValue;
    if valueSize == 1 {
      var b :- ctx.ReadByte();
      conditionValue := b as int;
    } else if valueSize == 2 {
      conditionValue :- ctx.ReadSint16LE();
    } else {
      return Err(BadValueSize(valueSize));
    }
    r := Ok(Compare(operatorCode, e.currentScriptValue, conditionValue));
  }

  /** The condition and operator stages in sequence, as every conditional
      opcode runs them. */
  method EvaluateTest(e: Engine, ctx: Context) returns (r: Result<bool>)
    requires e.Bound(ctx)
    modifies e, ctx
    ensures e.Bound(ctx) && ctx.opcodePos == old(ctx.opcodePos)
    ensures var t := Test(e.env, old(e.State()), ctx.actorIdx, ctx.script[..], old(ctx.pos));
      && (r.Ok? <==> t.Ok?)
      && (t.Ok? ==> r.value == t.value.0 && ctx.pos == t.value.1 && e.State() == t.value.2)
  {
    ghost var s := ctx.script[..];
    ghost var p := ctx.pos;
    ghost var w := e.State();
    var valueSize :- ProcessLifeConditions(e, ctx);
    r := ProcessLifeOperators(e, ctx, valueSize);
    assert ctx.script[..] == s;
  }
}
