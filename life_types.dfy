/** Values of the life-script interpreter: the opcode table, the condition and
    operator codes, actors as the records of the scene's actor table, and the
    pure decision functions the handlers are specified by. */
module LifeTypes {
  import opened Bytes

  // ---------------------------------------------------------------------------
  // Outcomes

  /** Fatal conditions: each stops the whole engine in the original. */
  datatype Error =
    | ReadPastEnd(at: int)             // a read beyond the end of the script buffer
    | SeekOutOfRange(target: int)      // a seek or skip outside the script buffer
    | BadOpcode(opcode: byte, at: int) // opcode byte at or above the table size
    | BadCondition(code: byte)         // condition code above kcCDROM
    | BadValueSize(size: int)          // literal width other than 1 or 2
    | BadActor(index: int)             // no actor with this index in the scene
    | BadTrack(index: int)             // no scene track point with this index
    | FlaNameTooLong                   // movie name without NUL in 64 bytes

  datatype Result<+T> = Ok(value: T) | Err(error: Error) {
    predicate IsFailure() { Err? }
    function PropagateFailure<U>(): Result<U>
      requires Err?
    {
      Err(error)
    }
    function Extract(): T
      requires Ok?
    {
      value
    }
  }

  /** What a handler tells the main loop: 0 (go on) or 1 (stop this run). */
  datatype Signal = Continue | Break

  // ---------------------------------------------------------------------------
  // The opcode table

  const END: byte := 0x00
  const NOP: byte := 0x01
  const SNIF: byte := 0x02
  const OFFSET: byte := 0x03
  const NEVERIF: byte := 0x04
  const NO_IF: byte := 0x06
  const LABEL: byte := 0x0A
  const RETURN: byte := 0x0B
  const IF: byte := 0x0C
  const SWIF: byte := 0x0D
  const ONEIF: byte := 0x0E
  const ELSE: byte := 0x0F
  const END_COMPORTEMENT: byte := 0x23
  const END_LIFE: byte := 0x29
  const CHANGE_CUBE: byte := 0x34
  const OR_IF: byte := 0x37
  const POS_POINT: byte := 0x3A
  const GAME_OVER: byte := 0x61
  const THE_END: byte := 0x62
  const BRUTAL_EXIT: byte := 0x69

  /** Display names of the 106 slots of the dispatch table, indexed by opcode;
      "" marks the unused slots. */
  const FunctionMap: seq<string> := [
    "END", "NOP", "SNIF", "OFFSET", "NEVERIF", "", "NO_IF", "", "", "",
    "LABEL", "RETURN", "IF", "SWIF", "ONEIF", "ELSE", "ENDIF", "BODY", "BODY_OBJ", "ANIM",
    "ANIM_OBJ", "SET_LIFE", "SET_LIFE_OBJ", "SET_TRACK", "SET_TRACK_OBJ", "MESSAGE", "FALLABLE", "SET_DIRMODE", "SET_DIRMODE_OBJ", "CAM_FOLLOW",
    "SET_BEHAVIOUR", "SET_FLAG_CUBE", "COMPORTEMENT", "SET_COMPORTEMENT", "SET_COMPORTEMENT_OBJ", "END_COMPORTEMENT", "SET_FLAG_GAME", "KILL_OBJ", "SUICIDE", "USE_ONE_LITTLE_KEY",
    "GIVE_GOLD_PIECES", "END_LIFE", "STOP_L_TRACK", "RESTORE_L_TRACK", "MESSAGE_OBJ", "INC_CHAPTER", "FOUND_OBJECT", "SET_DOOR_LEFT", "SET_DOOR_RIGHT", "SET_DOOR_UP",
    "SET_DOOR_DOWN", "GIVE_BONUS", "CHANGE_CUBE", "OBJ_COL", "BRICK_COL", "OR_IF", "INVISIBLE", "ZOOM", "POS_POINT", "SET_MAGIC_LEVEL",
    "SUB_MAGIC_POINT", "SET_LIFE_POINT_OBJ", "SUB_LIFE_POINT_OBJ", "HIT_OBJ", "PLAY_FLA", "PLAY_MIDI", "INC_CLOVER_BOX", "SET_USED_INVENTORY", "ADD_CHOICE", "ASK_CHOICE",
    "BIG_MESSAGE", "INIT_PINGOUIN", "SET_HOLO_POS", "CLR_HOLO_POS", "ADD_FUEL", "SUB_FUEL", "SET_GRM", "SAY_MESSAGE", "SAY_MESSAGE_OBJ", "FULL_POINT",
    "BETA", "GRM_OFF", "FADE_PAL_RED", "FADE_ALARM_RED", "FADE_ALARM_PAL", "FADE_RED_PAL", "FADE_RED_ALARM", "FADE_PAL_ALARM", "EXPLODE_OBJ", "BUBBLE_ON",
    "BUBBLE_OFF", "ASK_CHOICE_OBJ", "SET_DARK_PAL", "SET_NORMAL_PAL", "MESSAGE_SENDELL", "ANIM_SET", "HOLOMAP_TRAJ", "GAME_OVER", "THE_END", "MIDI_OFF",
    "PLAY_CD_TRACK", "PROJ_ISO", "PROJ_3D", "TEXT", "CLEAR_TEXT", "BRUTAL_EXIT"]

  /** Number of slots of the dispatch table; a larger opcode is fatal. */
  const TableSize: int := 0x6A

  /** The handlers that return 1 and so end a run of the script. */
  predicate IsTerminator(op: byte) {
    op in {END, RETURN, END_COMPORTEMENT, END_LIFE, GAME_OVER, THE_END, BRUTAL_EXIT}
  }

  /** The byte a conditional instruction leaves at its own opcode offset, given
      whether its test held: SWIF that holds becomes SNIF, SNIF that fails
      becomes SWIF (a toggle), ONEIF that holds becomes NEVERIF (one shot);
      every other case leaves the opcode as it was. */
  function SelfRewrite(op: byte, holds: bool): (r: byte)
    ensures r != op <==> (op == SWIF && holds) || (op == SNIF && !holds) || (op == ONEIF && holds)
    ensures op == SWIF && holds ==> r == SNIF
    ensures op == SNIF && !holds ==> r == SWIF
    ensures op == ONEIF && holds ==> r == NEVERIF
  {
    if op == SWIF && holds then SNIF
    else if op == SNIF && !holds then SWIF
    else if op == ONEIF && holds then NEVERIF
    else op
  }

  /** The toggle pair restores the original opcode, and the one-shot rewrite
      is final. */
  lemma SelfRewriteToggles(holds: bool)
    ensures SelfRewrite(SelfRewrite(SWIF, true), false) == SWIF
    ensures SelfRewrite(SelfRewrite(SNIF, false), true) == SNIF
    ensures SelfRewrite(SelfRewrite(ONEIF, true), holds) == NEVERIF
  {
  }

  /** The slots whose handler does nothing at all (lEMPTY and lNO_IF). */
  predicate IsNoOp(op: byte) {
    op in {0x05, 0x06, 0x07, 0x08, 0x09, 0x10}
  }

  // ---------------------------------------------------------------------------
  // Conditions and operators

  const kcCOL: byte := 0
  const kcCOL_OBJ: byte := 1
  const kcDISTANCE: byte := 2
  const kcZONE: byte := 3
  const kcZONE_OBJ: byte := 4
  const kcBODY: byte := 5
  const kcBODY_OBJ: byte := 6
  const kcANIM: byte := 7
  const kcANIM_OBJ: byte := 8
  const kcL_TRACK: byte := 9
  const kcL_TRACK_OBJ: byte := 10
  const kcFLAG_CUBE: byte := 11
  const kcCONE_VIEW: byte := 12
  const kcHIT_BY: byte := 13
  const kcACTION: byte := 14
  const kcFLAG_GAME: byte := 15
  const kcLIFE_POINT: byte := 16
  const kcLIFE_POINT_OBJ: byte := 17
  const kcNUM_LITTLE_KEYS: byte := 18
  const kcNUM_GOLD_PIECES: byte := 19
  const kcBEHAVIOUR: byte := 20
  const kcCHAPTER: byte := 21
  const kcDISTANCE_3D: byte := 22
  const kcMAGIC_LEVEL: byte := 23
  const kcMAGIC_POINTS: byte := 24
  const kcUSE_INVENTORY: byte := 25
  const kcCHOICE: byte := 26
  const kcFUEL: byte := 27
  const kcCARRIED_BY: byte := 28
  const kcCDROM: byte := 29

  /** Layout of a condition code in the stream: the number of operand bytes
      that follow the code, and the width of the comparison literal after the
      operator. Codes above kcCDROM have no layout. */
  function ConditionLayout(code: byte): (r: Result<(int, int)>)
    ensures r.Ok? <==> code <= kcCDROM
    ensures r.Ok? ==> r.value.0 in {0, 1} && r.value.1 in {1, 2}
    ensures r.Ok? ==> (r.value.1 == 2 <==> code in {kcDISTANCE, kcCONE_VIEW, kcNUM_GOLD_PIECES, kcDISTANCE_3D, kcCHOICE})
    ensures r.Ok? ==> (r.value.0 == 1 <==> code in {kcCOL_OBJ, kcDISTANCE, kcZONE_OBJ, kcBODY_OBJ, kcANIM_OBJ, kcL_TRACK_OBJ,
                                                    kcFLAG_CUBE, kcCONE_VIEW, kcFLAG_GAME, kcLIFE_POINT_OBJ, kcDISTANCE_3D, kcUSE_INVENTORY})
  {
    match code
    case 0 => Ok((0, 1))   // COL
    case 1 => Ok((1, 1))   // COL_OBJ actor
    case 2 => Ok((1, 2))   // DISTANCE actor
    case 3 => Ok((0, 1))   // ZONE
    case 4 => Ok((1, 1))   // ZONE_OBJ actor
    case 5 => Ok((0, 1))   // BODY
    case 6 => Ok((1, 1))   // BODY_OBJ actor
    case 7 => Ok((0, 1))   // ANIM
    case 8 => Ok((1, 1))   // ANIM_OBJ actor
    case 9 => Ok((0, 1))   // L_TRACK
    case 10 => Ok((1, 1))  // L_TRACK_OBJ actor
    case 11 => Ok((1, 1))  // FLAG_CUBE flag
    case 12 => Ok((1, 2))  // CONE_VIEW actor
    case 13 => Ok((0, 1))  // HIT_BY
    case 14 => Ok((0, 1))  // ACTION
    case 15 => Ok((1, 1))  // FLAG_GAME flag
    case 16 => Ok((0, 1))  // LIFE_POINT
    case 17 => Ok((1, 1))  // LIFE_POINT_OBJ actor
    case 18 => Ok((0, 1))  // NUM_LITTLE_KEYS
    case 19 => Ok((0, 2))  // NUM_GOLD_PIECES
    case 20 => Ok((0, 1))  // BEHAVIOUR
    case 21 => Ok((0, 1))  // CHAPTER
    case 22 => Ok((1, 2))  // DISTANCE_3D actor
    case 23 => Ok((0, 1))  // MAGIC_LEVEL
    case 24 => Ok((0, 1))  // MAGIC_POINTS
    case 25 => Ok((1, 1))  // USE_INVENTORY item
    case 26 => Ok((0, 2))  // CHOICE
    case 27 => Ok((0, 1))  // FUEL
    case 28 => Ok((0, 1))  // CARRIED_BY
    case 29 => Ok((0, 1))  // CDROM
    case _ => Err(BadCondition(code))
  }

  const kEqualTo: byte := 0
  const kGreaterThan: byte := 1
  const kLessThan: byte := 2
  const kGreaterThanOrEqualTo: byte := 3
  const kLessThanOrEqualTo: byte := 4
  const kNotEqualTo: byte := 5

  /** The comparison an operator code stands for, between the current script
      value and the literal; an unknown code compares false. */
  function Compare(op: byte, current: int, literal: int): bool {
    match op
    case 0 => current == literal
    case 1 => current > literal
    case 2 => current < literal
    case 3 => current >= literal
    case 4 => current <= literal
    case 5 => current != literal
    case _ => false
  }

  function Abs(x: int): (r: int)
    ensures r >= 0 && (r == x || r == -x)
  {
    if x < 0 then -x else x
  }

  // ---------------------------------------------------------------------------
  // Constants of the engine that the interpreter uses but does not define

  /** Named constants of the engine's headers, taken as parameters. */
  datatype Config = Config(
    maxTargetDistance: int,      // MAX_TARGET_ACTOR_DISTANCE
    angle0: int, angle45: int, angle90: int, angle180: int, angle270: int, angle360: int,
    maxInventoryItems: int,      // MaxInventoryItems
    inventoryDisabledFlag: int,  // GAMEFLAG_INVENTORY_DISABLED
    keypadItem: int,             // InventoryItems::kKeypad
    actorMaxLife: int,           // kActorMaxLife
    modeFollow: int,             // ControlMode::kFollow
    modeFollow2: int,            // ControlMode::kFollow2
    behaviourDiscrete: int,      // HeroBehaviourType::kDiscrete
    animNone: int,               // AnimationTypes::kAnimNone
    animStanding: int,           // AnimationTypes::kStanding
    citadelHarbor: int,          // LBA1SceneId::Citadel_Island_Harbor
    principalHarbor: int,        // LBA1SceneId::Principal_Island_Harbor
    finalBattle: int,            // LBA1SceneId::Polar_Island_Final_Battle
    usaVersion: bool,            // _cfgfile.Version == USA_VERSION
    textBehaviourNormal: int,    // TextId::kBehaviourNormal
    textSaveSettings: int,       // TextId::kSaveSettings
    ticksPerSecond: int,         // TO_SECONDS(1)
    spriteKey: int,              // SPRITEHQR_KEY
    spriteKashes: int)           // SPRITEHQR_KASHES
  {
    ghost predicate Valid() {
      maxTargetDistance >= 0 && principalHarbor == principalHarbor % 0x100
    }
  }

  // ---------------------------------------------------------------------------
  // Actors

  datatype Vec3 = Vec3(x: int, y: int, z: int)

  datatype Bonus = Bonus(cloverleaf: bool, kashes: bool, key: bool, lifepoints: bool,
                         magicpoints: bool, unk1: bool)

  /** The actor holds a bonus it can drop. */
  predicate CarriesBonus(b: Bonus) {
    b.cloverleaf || b.kashes || b.key || b.lifepoints || b.magicpoints
  }

  /** One entry of the scene's actor table, with the fields the life script
      reads or writes. `lifeScript` is the actor's own script buffer. */
  datatype Actor = Actor(
    lifeScript: array<byte>,
    positionInLifeScript: int,   // -1: the life script is halted
    positionInMoveScript: int,   // -1: the track script is stopped
    pausedTrackPtr: int,
    currentLabelPtr: int,
    labelIdx: int,
    life: int,
    collision: int,
    hitBy: int,
    carryBy: int,
    zone: int,
    entity: int,
    body: int,
    anim: int,
    previousAnimIdx: int,
    pos: Vec3,
    lastPos: Vec3,
    angle: int,
    speed: int,
    talkColor: int,
    controlMode: int,
    followedActor: int,
    isDead: bool,
    isSpriteMoving: bool,
    animEnded: bool,
    canFall: bool,
    collidesWithObjects: bool,
    collidesWithBricks: bool,
    lowCollision: bool,
    hidden: int,
    bonus: Bonus)

  /** The actor after KILL_OBJ or SUICIDE: dead, no entity, no zone, no life. */
  function Killed(a: Actor): (k: Actor)
    ensures k.isDead && k.entity == -1 && k.zone == -1 && k.life == 0
    ensures k.(isDead := a.isDead, entity := a.entity, zone := a.zone, life := a.life) == a
  {
    a.(isDead := true, entity := -1, zone := -1, life := 0)
  }

  /** Life left after SUB_LIFE_POINT_OBJ takes `points` away: never negative. */
  function LifeAfterLoss(life: int, points: int): (r: int)
    ensures r >= 0
    ensures r == 0 || r == life - points
    ensures life - points >= 0 ==> r == life - points
  {
    var left := life - points;
    if left < 0 then 0 else left
  }

  /** The (bricks, low) collision flags BRICK_COL sets for its operand. */
  function BrickCollision(collision: int): (r: (bool, bool))
    ensures r.1 ==> r.0
    ensures r == (true, false) <==> collision == 1
    ensures r == (true, true) <==> collision == 2
    ensures r == (false, false) <==> collision !in {1, 2}
  {
    if collision == 1 then (true, false)
    else if collision == 2 then (true, true)
    else (false, false)
  }

  // ---------------------------------------------------------------------------
  // Distances

  /** A measured distance as the condition reports it: the maximum sentinel
      when its absolute value exceeds the sentinel, itself otherwise. */
  function ClampDistance(maxDistance: int, distance: int): (r: int)
    requires maxDistance >= 0
    ensures Abs(r) <= maxDistance
    ensures r == distance || r == maxDistance
    ensures Abs(distance) <= maxDistance ==> r == distance
  {
    if Abs(distance) > maxDistance then maxDistance else distance
  }

  /** The value of the DISTANCE condition: the sentinel for a dead target or a
      height difference of 1500 or more, the clamped planar distance otherwise. */
  function DistanceValue(maxDistance: int, targetDead: bool, dy: int, distance2D: int): (r: int)
    requires maxDistance >= 0
    ensures Abs(r) <= maxDistance
    ensures targetDead || Abs(dy) >= 1500 ==> r == maxDistance
    ensures !targetDead && Abs(dy) < 1500 ==> r == ClampDistance(maxDistance, distance2D)
  {
    if targetDead then maxDistance
    else if Abs(dy) >= 1500 then maxDistance
    else ClampDistance(maxDistance, distance2D)
  }

  /** The value of the DISTANCE_3D condition: the sentinel for a dead target,
      the clamped 3D distance otherwise (no height cut-off). */
  function Distance3DValue(maxDistance: int, targetDead: bool, distance3D: int): (r: int)
    requires maxDistance >= 0
    ensures Abs(r) <= maxDistance
    ensures targetDead ==> r == maxDistance
    ensures !targetDead ==> r == ClampDistance(maxDistance, distance3D)
  {
    if targetDead then maxDistance else ClampDistance(maxDistance, distance3D)
  }

  /** Whether the CONE_VIEW test looks at the view angle: always, except when
      the target is the hero and the hero is not in discrete behaviour. */
  predicate ConeChecksAngle(targetIsHero: bool, heroBehaviour: int, discrete: int) {
    !targetIsHero || heroBehaviour == discrete
  }
}
