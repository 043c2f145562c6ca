# TwinE life scripts and Soldier Boyz hard-coded levels

This project models two pieces of ScummVM in Dafny and proves properties of them.

**The TwinE life-script interpreter** (`engines/twine/script/script_life_v1.cpp`).
Every actor of a Little Big Adventure scene carries a byte-coded life script.
Each frame, the interpreter runs an actor's script from its life cursor.
It fetches an opcode and dispatches it through a 106-entry table.
It stops as soon as a handler reports that the run is over.
The model keeps the source's imperative form:

- `LifeEngine.Context` is the script stream.
  It is a read/write cursor over the actor's byte `array`, and it remembers the offset of the opcode being executed.
- `LifeEngine.Engine` is a class that holds the game, scene, actor and renderer state the handlers change.
- Every handler is a method.
  Its contract states exactly when it fails, how far the cursor moves, and the whole new state, as a record update of the old one.
- The conditional opcodes evaluate a test: a condition code, an operator and a literal.
  Their contracts are tied to the pure specification functions `Condition`, `Operator`, `Test` and `Branch`.
  Those functions carry the facts about distances, flags and branch polarity.
- SWIF, SNIF and ONEIF rewrite their own opcode byte in the buffer.
  POS_POINT can rewrite itself into CHANGE_CUBE.
  The model keeps the buffer as a mutable `array` so these rewrites happen in place.
- Calls into renderers, the sound system, the movie player, dialogue and the holomap are not modelled.
  Each becomes an entry appended to the engine's `effects` log.
  Geometry and counter arithmetic from other engine classes (distances, angles, counter clamping, averaging, the player's choice) become functions held in `Env`.

**The Soldier Boyz hard-coded levels** (`engines/hypno/boyz/hard.cpp`):

- the routine table that `runCode` dispatches on;
- the scene-state checks that route between the hotel and the chapter-3 levels;
- the territory table used to restart a territory;
- the decisions taken by the name, difficulty and retry menus.

The menus poll events in batches, and each batch is handled in full.
The model expresses this with the generic folds `Drain` and `Poll`.
The class `BoyzEngine` runs these folds with nested loops, as the source does.

## Model

| member | source | states |
|---|---|---|
| Bytes.Sint16LE | engines/twine/script/script_life_v1.cpp:501 | the little-endian signed 16-bit value of two bytes lies in [-32768, 32767], is congruent to lo + 256*hi modulo 65536, and is negative exactly when the high byte's top bit is set |
| Bytes.Sint16LERoundTrip | engines/twine/script/script_life_v1.cpp:512 | every 16-bit value is decoded back from its low and high byte |
| Bytes.Sint16LEBytesRoundTrip | engines/twine/script/script_life_v1.cpp:512 | every pair of bytes is recovered from the value it decodes to |
| Bytes.Int16 | engines/twine/script/script_life_v1.cpp:943 | the int16 truncation keeps a value in range unchanged, lands in [-32768, 32767], and is congruent modulo 65536 |
| LifeTypes.SelfRewrite | engines/twine/script/script_life_v1.cpp:583-617 | a conditional changes its own opcode exactly for SWIF that holds (becomes SNIF), SNIF that fails (becomes SWIF) and ONEIF that holds (becomes NEVERIF) |
| LifeTypes.SelfRewriteToggles | engines/twine/script/script_life_v1.cpp:495-505 | SWIF/SNIF is a toggle that restores the original opcode; ONEIF's rewrite to NEVERIF is final |
| LifeTypes.ConditionLayout | engines/twine/script/script_life_v1.cpp:136-399 | a condition code is accepted iff it is at most kcCDROM; exactly the actor, zone, flag and item tests take an operand byte, and exactly DISTANCE, CONE_VIEW, NUM_GOLD_PIECES, DISTANCE_3D and CHOICE compare with a 2-byte literal |
| LifeTypes.Killed | engines/twine/script/script_life_v1.cpp:897-909 | a killed actor is dead with no entity, no zone and no life, and nothing else about it changes |
| LifeTypes.LifeAfterLoss | engines/twine/script/script_life_v1.cpp:1289-1301 | life after a loss is never negative; it is the difference when that is not negative, 0 otherwise |
| LifeTypes.BrickCollision | engines/twine/script/script_life_v1.cpp:1160-1174 | operand 1 enables brick collision, 2 enables it with low collision, anything else disables both; low collision implies brick collision |
| LifeTypes.ClampDistance | engines/twine/script/script_life_v1.cpp:158-179 | a reported distance never exceeds the sentinel in absolute value and is the measured one whenever that fits |
| LifeTypes.DistanceValue | engines/twine/script/script_life_v1.cpp:158-179 | DISTANCE yields the sentinel for a dead target or a height gap of 1500 or more, the clamped planar distance otherwise |
| LifeTypes.Distance3DValue | engines/twine/script/script_life_v1.cpp:322-344 | DISTANCE_3D yields the sentinel for a dead target, the clamped 3D distance otherwise, with no height cut-off |
| LifeEngine.Context.constructor | engines/twine/script/script_life_v1.cpp:61-65 | a context belongs to one actor and reads that actor's buffer; its cursor and opcode offset start at 0, and the run then seeks to the life cursor |
| LifeEngine.Context.ReadByte | engines/twine/script/script_life_v1.cpp:138 | a byte read yields the byte under the cursor and advances it by one; a read past the end fails and leaves the cursor |
| LifeEngine.Context.ReadSint16LE | engines/twine/script/script_life_v1.cpp:411 | a 16-bit read decodes the two bytes under the cursor and advances by two; a short read fails and leaves the cursor |
| LifeEngine.Context.Seek | engines/twine/script/script_life_v1.cpp:513 | seeking to an offset inside the buffer moves the cursor there; any other offset fails and leaves the cursor |
| LifeEngine.Context.Skip | engines/twine/script/script_life_v1.cpp:1238 | a relative move lands inside the buffer or fails, leaving the cursor |
| LifeEngine.Context.JumpToOffset | engines/twine/script/script_life_v1.cpp:511-516 | reading a stored 16-bit offset and seeking to it succeeds exactly when `Jump` does and lands where it says; the opcode offset is kept |
| LifeEngine.Context.SetOpcode | engines/twine/script/script_life_v1.cpp:67-69 | writes the byte at the opcode offset and changes no other byte of the buffer |
| LifeEngine.Context.WriteByte | engines/twine/script/script_life_v1.cpp:1239-1240 | writes the byte under the cursor, advances it, and changes no other byte |
| LifeEngine.Context.UpdateOpcodePos | engines/twine/script/script_life_v1.cpp:71-73 | the opcode offset becomes the cursor |
| LifeEngine.ConeMeasure | engines/twine/script/script_life_v1.cpp:226-270 | the distance CONE_VIEW measures is within the sentinel; a target 1500 or more away in height gives angle 0 and the sentinel |
| LifeEngine.ConeValue | engines/twine/script/script_life_v1.cpp:226-270 | CONE_VIEW is within the sentinel, is the sentinel for a dead target, and is otherwise the sentinel or the measured distance |
| LifeEngine.FlagGameValue | engines/twine/script/script_life_v1.cpp:279-294 | FLAG_GAME reads the flag itself unless the inventory is disabled and the flag is an inventory item |
| LifeEngine.UseInventoryValue | engines/twine/script/script_life_v1.cpp:353-375 | USE_INVENTORY is 1 iff the inventory is enabled and the item is used this frame or flagged used and held; 0 otherwise |
| LifeEngine.Measure | engines/twine/script/script_life_v1.cpp:136-399 | a condition fails iff its code is unknown or its actor operand names no actor; distance values stay within the sentinel; DISTANCE and DISTANCE_3D agree with their value functions; COL on a dead actor gives -1 |
| LifeEngine.AfterMeasure | engines/twine/script/script_life_v1.cpp:136-399 | measuring sets the current script value and changes nothing but that, the target distance and the overlay table (USE_INVENTORY's item overlay) |
| LifeEngine.Condition | engines/twine/script/script_life_v1.cpp:136-399 | the condition stage succeeds only on a known code, moves past the code and its operand, returns the announced width, leaves actors, game and scene alone, and fails on an unknown code |
| LifeEngine.ConditionOperand | engines/twine/script/script_life_v1.cpp:136-399 | reading a condition's code and operand succeeds iff the code is known and its operand byte lies in the buffer; it yields the code, the actor or item operand, the announced value width and the offset after the operand; an unknown code is `BadCondition` |
| LifeEngine.ReadConditionOperand | engines/twine/script/script_life_v1.cpp:137-138 | reading a condition's code and operand from the stream yields `ConditionOperand` of the buffer and leaves the cursor just past the operand |
| LifeEngine.Operator | engines/twine/script/script_life_v1.cpp:404-459 | the operator stage succeeds iff the operator byte and a literal of width 1 or 2 can be read; it returns the comparison and the position after the literal; an unknown operator never holds |
| LifeEngine.Test | engines/twine/script/script_life_v1.cpp:564-577 | a test is the condition stage followed by the operator stage; the branch offset follows 3 to 5 bytes after the test's start |
| LifeEngine.ProcessLifeConditions | engines/twine/script/script_life_v1.cpp:136-399 | the stream method moves the cursor and updates the engine exactly as Condition says, and changes nothing when it fails |
| LifeEngine.ProcessLifeOperators | engines/twine/script/script_life_v1.cpp:404-459 | the stream method returns and moves the cursor exactly as Operator says |
| LifeEngine.EvaluateTest | engines/twine/script/script_life_v1.cpp:564-567 | the two stream stages in sequence behave as Test |
| LifeEngine.Jump | engines/twine/script/script_life_v1.cpp:511-516 | a jump succeeds iff the stored offset can be read and lies inside the buffer, and lands on it |
| LifeEngine.Fall | engines/twine/script/script_life_v1.cpp:573-574 | falling through skips the two offset bytes and fails only past the end |
| LifeFlow.Branch | engines/twine/script/script_life_v1.cpp:564-617 | IF, SWIF and ONEIF fall through when the test holds and jump otherwise; OR_IF is IF with the test negated; SNIF and NEVERIF always jump |
| LifeFlow.If | engines/twine/script/script_life_v1.cpp:564-577 | IF fails iff the test or the branch cannot be read; else the world is the one the test leaves, the cursor is where Branch says, and the buffer is unchanged |
| LifeFlow.OrIf | engines/twine/script/script_life_v1.cpp:1180-1193 | OR_IF: as IF with the opposite polarity |
| LifeFlow.Swif | engines/twine/script/script_life_v1.cpp:583-597 | SWIF: as IF, and its opcode byte becomes SNIF once the test holds |
| LifeFlow.OneIf | engines/twine/script/script_life_v1.cpp:603-617 | ONEIF: as IF, and its opcode byte becomes NEVERIF once the test holds |
| LifeFlow.Snif | engines/twine/script/script_life_v1.cpp:495-505 | SNIF always jumps, and its opcode byte becomes SWIF when the test fails |
| LifeFlow.NeverIf | engines/twine/script/script_life_v1.cpp:522-530 | NEVERIF evaluates the test for its effect on the world and always jumps |
| LifeFlow.Offset | engines/twine/script/script_life_v1.cpp:511-516 | OFFSET jumps to the stored offset and changes nothing else |
| LifeFlow.Else | engines/twine/script/script_life_v1.cpp:623-628 | ELSE jumps to the stored offset and changes nothing else |
| LifeFlow.SkipOne | engines/twine/script/script_life_v1.cpp:545-549 | NOP, LABEL and COMPORTEMENT step over one byte and change nothing else |
| LifeFlow.Empty | engines/twine/script/script_life_v1.cpp:466-469 | the unused slots, ENDIF and NO_IF change nothing and continue |
| LifeFlow.EndLife | engines/twine/script/script_life_v1.cpp:974-978 | END and END_LIFE set the actor's life cursor to -1 and end the run |
| LifeFlow.Return | engines/twine/script/script_life_v1.cpp:555-558 | RETURN and END_COMPORTEMENT end the run and change nothing |
| LifeFlow.GameOver | engines/twine/script/script_life_v1.cpp:1783-1789 | GAME_OVER marks the hero's animation ended, takes the hero's life to 0, clears the clover leaves and ends the run |
| LifeFlow.TheEnd | engines/twine/script/script_life_v1.cpp:1795-1807 | THE_END finishes the scene loop in the final battle scene, with the hero at full life, its previous behaviour and angle back, 80 magic points and no clover leaves, saves the game, and ends the run |
| LifeFlow.BrutalExit | engines/twine/script/script_life_v1.cpp:1910-1914 | BRUTAL_EXIT sends the scene loop back to the menu and ends the run |
| LifeFlow.SetLife | engines/twine/script/script_life_v1.cpp:680-685 | SET_LIFE and SET_COMPORTEMENT store the offset read as the actor's life cursor |
| LifeFlow.SetLifeObj | engines/twine/script/script_life_v1.cpp:691-697 | the same for the named actor; an actor index that names no actor fails |
| LifeFlow.SetTrack | engines/twine/script/script_life_v1.cpp:703-708 | SET_TRACK stores the offset read as the actor's track cursor |
| LifeFlow.SetTrackObj | engines/twine/script/script_life_v1.cpp:714-720 | the same for the named actor |
| LifeFlow.StopLTrack | engines/twine/script/script_life_v1.cpp:984-989 | STOP_L_TRACK remembers the current label's offset as the paused track position and stops the track |
| LifeFlow.RestoreLTrack | engines/twine/script/script_life_v1.cpp:995-999 | RESTORE_L_TRACK resumes the track at the paused position |
| LifeActors.DoorMoved | engines/twine/script/script_life_v1.cpp:1050-1108 | a door moves from its last position along one axis by the distance, faces the angle, stands still, and nothing else about it changes |
| LifeActors.DirModeObjReadsFollow | engines/twine/script/script_life_v1.cpp:778-793 | SET_DIRMODE_OBJ reads a followed-actor byte for kFollow on the target, or for kFollow2 on the executing actor, whose new mode counts only when it is the target |
| LifeActors.Body | engines/twine/script/script_life_v1.cpp:634-639 | BODY requests the model read for the executing actor |
| LifeActors.BodyObj | engines/twine/script/script_life_v1.cpp:645-651 | BODY_OBJ requests the model for the named actor |
| LifeActors.Anim | engines/twine/script/script_life_v1.cpp:657-662 | ANIM requests the animation read for the executing actor |
| LifeActors.AnimObj | engines/twine/script/script_life_v1.cpp:668-674 | ANIM_OBJ requests the animation for the named actor |
| LifeActors.AnimSet | engines/twine/script/script_life_v1.cpp:1758-1767 | ANIM_SET clears the current and previous animation, then requests the new one |
| LifeActors.SetDirMode | engines/twine/script/script_life_v1.cpp:760-772 | SET_DIRMODE sets the control mode, and the followed actor too exactly for kFollow |
| LifeActors.SetDirModeObj | engines/twine/script/script_life_v1.cpp:778-793 | SET_DIRMODE_OBJ sets the named actor's mode, reading a followed actor as DirModeObjReadsFollow says; an unknown actor fails |
| LifeActors.SetDoorLeft | engines/twine/script/script_life_v1.cpp:1050-1060 | the door faces ANGLE_270 at its last x minus the distance |
| LifeActors.SetDoorRight | engines/twine/script/script_life_v1.cpp:1066-1076 | the door faces ANGLE_90 at its last x plus the distance |
| LifeActors.SetDoorUp | engines/twine/script/script_life_v1.cpp:1082-1092 | the door faces ANGLE_180 at its last z minus the distance |
| LifeActors.SetDoorDown | engines/twine/script/script_life_v1.cpp:1098-1108 | the door faces ANGLE_0 at its last z plus the distance |
| LifeActors.Beta | engines/twine/script/script_life_v1.cpp:1547-1553 | BETA turns the actor to the angle and clears its rotation |
| LifeActors.PosPoint | engines/twine/script/script_life_v1.cpp:1233-1247 | POS_POINT puts the actor on the track point, failing on an unknown track; with enhancements on, the hero in the Citadel harbour asking for track 8 instead rewrites the instruction into CHANGE_CUBE to the Principal harbour and rewinds onto it |
| LifeActors.Fallable | engines/twine/script/script_life_v1.cpp:749-754 | the actor can fall iff bit 0 of the operand is set |
| LifeActors.ObjCol | engines/twine/script/script_life_v1.cpp:1145-1154 | collision with other actors is on iff the operand is not 0 |
| LifeActors.BrickCol | engines/twine/script/script_life_v1.cpp:1160-1174 | brick and low collision are set as BrickCollision says |
| LifeActors.Invisible | engines/twine/script/script_life_v1.cpp:1199-1203 | the operand becomes the actor's hidden flag |
| LifeActors.GiveBonus | engines/twine/script/script_life_v1.cpp:1114-1127 | an actor carrying a bonus drops it; a non-zero operand marks the bonus as given |
| LifeActors.Drops | engines/twine/script/script_life_v1.cpp:1118-1120 | an extra-bonus drop is asked for exactly when the actor carries a clover leaf, gold, a key, life or magic |
| LifeActors.Marked | engines/twine/script/script_life_v1.cpp:1122-1124 | a non-zero flag sets the bonus mark and a zero flag keeps it; nothing else of the bonus changes |
| LifeActors.KillObj | engines/twine/script/script_life_v1.cpp:897-909 | the named actor drops what it carries and is Killed; an unknown actor fails |
| LifeActors.Suicide | engines/twine/script/script_life_v1.cpp:915-924 | the executing actor drops what it carries and is Killed |
| LifeActors.InitPingouin | engines/twine/script/script_life_v1.cpp:1433-1442 | the named actor becomes the dormant mecha-penguin: dead, with no entity and no zone |
| LifeActors.SetLifePointObj | engines/twine/script/script_life_v1.cpp:1275-1283 | the named actor's life becomes the operand |
| LifeActors.SubLifePointObj | engines/twine/script/script_life_v1.cpp:1289-1301 | the named actor loses the points as LifeAfterLoss says, so its life stays non-negative |
| LifeActors.HitObj | engines/twine/script/script_life_v1.cpp:1307-1313 | the executing actor hits the named one with the given strength, at the target's angle |
| LifeActors.ExplodeObj | engines/twine/script/script_life_v1.cpp:1655-1666 | the named actor explodes at its position |
| LifeWorld.FirstLiveRange | engines/twine/script/script_life_v1.cpp:952-961 | the index of the first live money overlay, with no live one before it, or the table size when there is none |
| LifeWorld.RangeRestarted | engines/twine/script/script_life_v1.cpp:954-957 | the reused money overlay keeps its kind, now counts to the new amount, and lives three seconds from now |
| LifeWorld.NulDistance | engines/twine/script/script_life_v1.cpp:1322-1331 | the distance to the first NUL byte: every byte before it is non-NUL, and it is NUL when it lies inside the buffer |
| LifeWorld.NextTextLine | engines/twine/script/script_life_v1.cpp:1863-1892 | the text line moves down one 40-pixel line iff another line still fits; it stays on screen |
| LifeWorld.TextShown | engines/twine/script/script_life_v1.cpp:1863-1892 | the USA release shows the save-settings text in place of the behaviour-normal one; other releases show the text asked for |
| LifeWorld.Message | engines/twine/script/script_life_v1.cpp:726-743 | MESSAGE has the executing actor speak the text |
| LifeWorld.MessageObj | engines/twine/script/script_life_v1.cpp:1005-1020 | MESSAGE_OBJ has the named actor speak; an unknown actor fails |
| LifeWorld.BigMessage | engines/twine/script/script_life_v1.cpp:1411-1427 | BIG_MESSAGE speaks the text in the full-screen box |
| LifeWorld.SayMessage | engines/twine/script/script_life_v1.cpp:1503-1513 | SAY_MESSAGE adds a speech overlay for the executing actor |
| LifeWorld.SayMessageObj | engines/twine/script/script_life_v1.cpp:1519-1530 | SAY_MESSAGE_OBJ adds it for the named actor |
| LifeWorld.AddChoice | engines/twine/script/script_life_v1.cpp:1380-1385 | ADD_CHOICE appends the text to the pending choices |
| LifeWorld.AskChoice | engines/twine/script/script_life_v1.cpp:1391-1405 | ASK_CHOICE stores the player's answer over the pending choices and empties them |
| LifeWorld.AskChoiceObj | engines/twine/script/script_life_v1.cpp:1692-1708 | ASK_CHOICE_OBJ first leaves the scenery view, then does the same for the named actor; an index that names no actor fails with `BadActor` |
| LifeWorld.BubbleOn | engines/twine/script/script_life_v1.cpp:1672-1676 | BUBBLE_ON shows the speech bubble |
| LifeWorld.BubbleOff | engines/twine/script/script_life_v1.cpp:1682-1686 | BUBBLE_OFF hides it |
| LifeWorld.Text | engines/twine/script/script_life_v1.cpp:1863-1892 | TEXT draws the line while it fits and moves the line position as NextTextLine says |
| LifeWorld.ClearText | engines/twine/script/script_life_v1.cpp:1898-1904 | CLEAR_TEXT clears the text area and restarts at the top line |
| LifeWorld.MessageSendell | engines/twine/script/script_life_v1.cpp:1734-1752 | MESSAGE_SENDELL shows Sendell's message screen |
| LifeWorld.SetFlagCube | engines/twine/script/script_life_v1.cpp:829-837 | SET_FLAG_CUBE sets the scene flag to the value |
| LifeWorld.SetFlagGame | engines/twine/script/script_life_v1.cpp:885-891 | SET_FLAG_GAME sets the game flag to the value |
| LifeWorld.CamFollow | engines/twine/script/script_life_v1.cpp:799-809 | CAM_FOLLOW recentres on the named actor unless it is already followed |
| LifeWorld.SetBehaviour | engines/twine/script/script_life_v1.cpp:815-823 | SET_BEHAVIOUR makes the hero stand, then sets the behaviour |
| LifeWorld.ChangeCube | engines/twine/script/script_life_v1.cpp:1133-1139 | CHANGE_CUBE requests the scene change, entering at the scene's start |
| LifeWorld.HolomapTraj | engines/twine/script/script_life_v1.cpp:1773-1777 | HOLOMAP_TRAJ records the trajectory to play |
| LifeWorld.HoloPos | engines/twine/script/script_life_v1.cpp:1448-1464 | SET_HOLO_POS and CLR_HOLO_POS mark and unmark a holomap location |
| LifeWorld.SetGrm | engines/twine/script/script_life_v1.cpp:1492-1497 | SET_GRM selects and initialises the ceiling grid |
| LifeWorld.GrmOff | engines/twine/script/script_life_v1.cpp:1559-1569 | GRM_OFF drops the ceiling grid, if one is in use |
| LifeWorld.Zoom | engines/twine/script/script_life_v1.cpp:1209-1227 | ZOOM enters or leaves the zoomed view |
| LifeWorld.Proj3D | engines/twine/script/script_life_v1.cpp:1844-1857 | PROJ_3D switches to the credits camera and stops drawing grid tiles |
| LifeWorld.ProjIso | engines/twine/script/script_life_v1.cpp:1834-1838 | PROJ_ISO returns to the isometric projection |
| LifeWorld.Fade | engines/twine/script/script_life_v1.cpp:1575-1649 | each of the six fades plays its fade; exactly the three ending in the alarm palette leave it in use |
| LifeWorld.SetPalette | engines/twine/script/script_life_v1.cpp:1714-1728 | SET_DARK_PAL and SET_NORMAL_PAL switch the palette |
| LifeWorld.PlayMidi | engines/twine/script/script_life_v1.cpp:1345-1350 | PLAY_MIDI plays the track read |
| LifeWorld.PlayCdTrack | engines/twine/script/script_life_v1.cpp:1823-1828 | PLAY_CD_TRACK plays the track read |
| LifeWorld.MidiOff | engines/twine/script/script_life_v1.cpp:1813-1817 | MIDI_OFF stops the music |
| LifeWorld.PlayFla | engines/twine/script/script_life_v1.cpp:1319-1339 | PLAY_FLA succeeds iff a NUL ends the name within 63 characters, plays exactly the bytes before it, and leaves the cursor after the NUL |
| LifeWorld.IncChapter | engines/twine/script/script_life_v1.cpp:1026-1030 | INC_CHAPTER adds one to the chapter |
| LifeWorld.FoundObject | engines/twine/script/script_life_v1.cpp:1036-1044 | FOUND_OBJECT shows the found-item scene for the item |
| LifeWorld.SetUsedInventory | engines/twine/script/script_life_v1.cpp:1366-1374 | SET_USED_INVENTORY flags items below the keypad as used and ignores the others |
| LifeWorld.UseOneLittleKey | engines/twine/script/script_life_v1.cpp:930-936 | USE_ONE_LITTLE_KEY spends a key and shows the key sprite |
| LifeWorld.GiveGoldPieces | engines/twine/script/script_life_v1.cpp:942-968 | GIVE_GOLD_PIECES pays the amount; the first live money overlay (FirstLiveRange) is restarted to count from the averaged old amount to the new one; otherwise `addOverlay` enters a new money overlay into the overlay table, where a later payment finds it |
| LifeWorld.SetMagicLevel | engines/twine/script/script_life_v1.cpp:1253-1258 | SET_MAGIC_LEVEL sets the level and refills the magic points |
| LifeWorld.SubMagicPoint | engines/twine/script/script_life_v1.cpp:1264-1269 | SUB_MAGIC_POINT removes magic points through the counter |
| LifeWorld.Fuel | engines/twine/script/script_life_v1.cpp:1470-1486 | ADD_FUEL and SUB_FUEL add or remove gas through the counter |
| LifeWorld.IncCloverBox | engines/twine/script/script_life_v1.cpp:1356-1360 | INC_CLOVER_BOX adds one clover box |
| LifeWorld.FullPoint | engines/twine/script/script_life_v1.cpp:1536-1541 | FULL_POINT restores the hero's full life and magic points |
| LifeInterp.Dispatch00 | engines/twine/script/script_life_v1.cpp:1917-1920 | opcodes 0x00 to 0x03 run the handlers the table lists for them: the step is that handler's step predicate, and it keeps what every table step keeps |
| LifeInterp.Dispatch04 | engines/twine/script/script_life_v1.cpp:1921-1924 | opcodes 0x04 to 0x07 run the handlers the table lists for them: the step is that handler's step predicate, and it keeps what every table step keeps |
| LifeInterp.Dispatch08 | engines/twine/script/script_life_v1.cpp:1925-1928 | opcodes 0x08 to 0x0B run the handlers the table lists for them: the step is that handler's step predicate, and it keeps what every table step keeps |
| LifeInterp.Dispatch0C | engines/twine/script/script_life_v1.cpp:1929-1932 | opcodes 0x0C to 0x0F run the handlers the table lists for them: the step is that handler's step predicate, and it keeps what every table step keeps |
| LifeInterp.Dispatch10 | engines/twine/script/script_life_v1.cpp:1933-1936 | opcodes 0x10 to 0x13 run the handlers the table lists for them: the step is that handler's step predicate, and it keeps what every table step keeps |
| LifeInterp.Dispatch14 | engines/twine/script/script_life_v1.cpp:1937-1940 | opcodes 0x14 to 0x17 run the handlers the table lists for them: the step is that handler's step predicate, and it keeps what every table step keeps |
| LifeInterp.Dispatch18 | engines/twine/script/script_life_v1.cpp:1941-1944 | opcodes 0x18 to 0x1B run the handlers the table lists for them: the step is that handler's step predicate, and it keeps what every table step keeps |
| LifeInterp.Dispatch1C | engines/twine/script/script_life_v1.cpp:1945-1948 | opcodes 0x1C to 0x1F run the handlers the table lists for them: the step is that handler's step predicate, and it keeps what every table step keeps |
| LifeInterp.Dispatch20 | engines/twine/script/script_life_v1.cpp:1949-1952 | opcodes 0x20 to 0x23 run the handlers the table lists for them: the step is that handler's step predicate, and it keeps what every table step keeps |
| LifeInterp.Dispatch24 | engines/twine/script/script_life_v1.cpp:1953-1956 | opcodes 0x24 to 0x27 run the handlers the table lists for them: the step is that handler's step predicate, and it keeps what every table step keeps |
| LifeInterp.Dispatch28 | engines/twine/script/script_life_v1.cpp:1957-1960 | opcodes 0x28 to 0x2B run the handlers the table lists for them: the step is that handler's step predicate, and it keeps what every table step keeps |
| LifeInterp.Dispatch2C | engines/twine/script/script_life_v1.cpp:1961-1964 | opcodes 0x2C to 0x2F run the handlers the table lists for them: the step is that handler's step predicate, and it keeps what every table step keeps |
| LifeInterp.Dispatch30 | engines/twine/script/script_life_v1.cpp:1965-1968 | opcodes 0x30 to 0x33 run the handlers the table lists for them: the step is that handler's step predicate, and it keeps what every table step keeps |
| LifeInterp.Dispatch34 | engines/twine/script/script_life_v1.cpp:1969-1972 | opcodes 0x34 to 0x37 run the handlers the table lists for them: the step is that handler's step predicate, and it keeps what every table step keeps |
| LifeInterp.Dispatch38 | engines/twine/script/script_life_v1.cpp:1973-1976 | opcodes 0x38 to 0x3B run the handlers the table lists for them: the step is that handler's step predicate, and it keeps what every table step keeps |
| LifeInterp.Dispatch3C | engines/twine/script/script_life_v1.cpp:1977-1980 | opcodes 0x3C to 0x3F run the handlers the table lists for them: the step is that handler's step predicate, and it keeps what every table step keeps |
| LifeInterp.Dispatch40 | engines/twine/script/script_life_v1.cpp:1981-1984 | opcodes 0x40 to 0x43 run the handlers the table lists for them: the step is that handler's step predicate, and it keeps what every table step keeps |
| LifeInterp.Dispatch44 | engines/twine/script/script_life_v1.cpp:1985-1988 | opcodes 0x44 to 0x47 run the handlers the table lists for them: the step is that handler's step predicate, and it keeps what every table step keeps |
| LifeInterp.Dispatch48 | engines/twine/script/script_life_v1.cpp:1989-1992 | opcodes 0x48 to 0x4B run the handlers the table lists for them: the step is that handler's step predicate, and it keeps what every table step keeps |
| LifeInterp.Dispatch4C | engines/twine/script/script_life_v1.cpp:1993-1996 | opcodes 0x4C to 0x4F run the handlers the table lists for them: the step is that handler's step predicate, and it keeps what every table step keeps |
| LifeInterp.Dispatch50 | engines/twine/script/script_life_v1.cpp:1997-2000 | opcodes 0x50 to 0x53 run the handlers the table lists for them: the step is that handler's step predicate, and it keeps what every table step keeps |
| LifeInterp.Dispatch54 | engines/twine/script/script_life_v1.cpp:2001-2004 | opcodes 0x54 to 0x57 run the handlers the table lists for them: the step is that handler's step predicate, and it keeps what every table step keeps |
| LifeInterp.Dispatch58 | engines/twine/script/script_life_v1.cpp:2005-2008 | opcodes 0x58 to 0x5B run the handlers the table lists for them: the step is that handler's step predicate, and it keeps what every table step keeps |
| LifeInterp.Dispatch5C | engines/twine/script/script_life_v1.cpp:2009-2012 | opcodes 0x5C to 0x5F run the handlers the table lists for them: the step is that handler's step predicate, and it keeps what every table step keeps |
| LifeInterp.Dispatch60 | engines/twine/script/script_life_v1.cpp:2013-2016 | opcodes 0x60 to 0x63 run the handlers the table lists for them: the step is that handler's step predicate, and it keeps what every table step keeps |
| LifeInterp.Dispatch64 | engines/twine/script/script_life_v1.cpp:2017-2020 | opcodes 0x64 to 0x67 run the handlers the table lists for them: the step is that handler's step predicate, and it keeps what every table step keeps |
| LifeInterp.Dispatch68 | engines/twine/script/script_life_v1.cpp:2021-2022 | opcodes 0x68 to 0x69 run the handlers the table lists for them: the step is that handler's step predicate, and it keeps what every table step keeps |
| LifeInterp.Dispatch | engines/twine/script/script_life_v1.cpp:1916-2022 | each opcode of the table runs the handler the table names for it (`Performs` lists the handler step per opcode); every table step keeps the opcode offset, changes the buffer only at its opcode byte and the byte after it, and ends the run exactly for the seven terminators; END and END_LIFE then leave the life cursor at -1, GAME_OVER the hero dead, THE_END and BRUTAL_EXIT their loop state, and RETURN and END_COMPORTEMENT the world unchanged |
| LifeInterp.ProcessLifeScript | engines/twine/script/script_life_v1.cpp:2028-2051 | the run starts at the actor's life cursor; each turn fetches the byte at the cursor, runs that opcode's table entry from just past it and moves the opcode offset to where the entry left the cursor; the run stops, and only then, as `Verdict` says: with `BadOpcode` iff the next byte is past the table, with the handler's error iff a handler fails, with `Ended` at the first terminator, with a read failure past the end; the final state and buffer are the last turn's |
| LifeInterp.Advance | engines/twine/script/script_life_v1.cpp:2034-2049 | one pass of the loop: either the run stops with the outcome `Verdict` gives, or it grows by one turn that went on |
| LifeInterp.Fetch | engines/twine/script/script_life_v1.cpp:2035-2040 | reading the opcode fails exactly when `Verdict` stops the run there (a read past the end, an opcode past the table) |
| LifeInterp.Turn | engines/twine/script/script_life_v1.cpp:2038-2048 | a turn runs the opcode's table entry, moves the opcode offset to the cursor, and extends the run by that turn |
| LifeInterp.Resume | engines/twine/script/script_life_v1.cpp:2048 | the next turn starts with the opcode offset on the cursor, from the state and buffer the last turn left |
| LifeInterp.Start | engines/twine/script/script_life_v1.cpp:2029-2032 | a run starts on the actor's own world and buffer with cursor and opcode offset on the life cursor |
| LifeInterp.RunExtends | engines/twine/script/script_life_v1.cpp:2034-2049 | a run that went on extends by a turn taken where it left off |
| LifeInterp.ChainTurn | engines/twine/script/script_life_v1.cpp:2034-2049 | every prefix of a run is a run, and each turn starts where the turns before it left off |
| LifeInterp.RunContinues | engines/twine/script/script_life_v1.cpp:2043-2049 | every turn before the last returned Continue and executed no terminator |
| LifeInterp.EndedAtTerminator | engines/twine/script/script_life_v1.cpp:2045-2049 | a run that ended did so at a terminator and leaves that terminator's aftermath |
| LifeInterp.RunKeepsOtherBytes | engines/twine/script/script_life_v1.cpp:2034-2049 | after a run whose turns all succeeded the buffer keeps its length and every byte that no turn executed as its opcode or the byte after it |
| BoyzHard.RoutineFor | engines/hypno/boyz/hard.cpp:32-47 | a name selects the routine called by that name; any other name is the invalid-hard-coded-level error |
| BoyzHard.RoutineForName | engines/hypno/boyz/hard.cpp:32-47 | every routine is reached through its own name |
| BoyzHard.RoutineForAccepts | engines/hypno/boyz/hard.cpp:32-47 | a name is accepted exactly when it is one of the six routine names |
| BoyzHard.FirstLevelTerritory | engines/hypno/boyz/hard.cpp:307-320 | a level in territory 1 to 5 restarts at a level of the same territory; any other level is the invalid-territory error |
| BoyzHard.FirstLevelTerritoryIdempotent | engines/hypno/boyz/hard.cpp:307-320 | restarting from a territory's first level lands on that level again |
| BoyzHard.Probe | engines/hypno/boyz/hard.cpp:265-267 | the short-circuit chain holds iff every flag is set; reading inserts 0 only for keys read that were missing, and no flag's value changes |
| BoyzHard.CheckC3Route | engines/hypno/boyz/hard.cpp:264-277 | the chapter-3 finale comes iff the four chapter-3 sequences and the hotel are done, the chapter-3 selection otherwise; no flag changes |
| BoyzHard.CheckHoRoute | engines/hypno/boyz/hard.cpp:279-293 | with the five hotel sequences done the hotel is marked done and chapter 3 is checked next; otherwise back to the hotel selection; no other flag changes |
| BoyzHard.HotelThenC3 | engines/hypno/boyz/hard.cpp:279-293 | after the hotel is finished, the chapter-3 check leads to the finale iff the four chapter-3 sequences are done |
| BoyzHard.NameEvent | engines/hypno/boyz/hard.cpp:75-84 | the prompt ends only on Return with a non-empty name, and one event adds at most one character |
| BoyzHard.DrainAppend | engines/hypno/boyz/hard.cpp:66-92 | handling two runs of events in turn is the same as handling them together |
| BoyzHard.PollKeeps | engines/hypno/boyz/hard.cpp:66-96 | a property every event keeps holds after any number of polled batches |
| BoyzHard.DrainKeeps | engines/hypno/boyz/hard.cpp:67-92 | a property every event keeps holds after one batch |
| BoyzHard.TypingAppendsCapitals | engines/hypno/boyz/hard.cpp:81-83 | typing a lower-case word appends the capitals of its letters |
| BoyzHard.BackspacesUndo | engines/hypno/boyz/hard.cpp:75-76 | as many backspaces as characters typed undo the typing |
| BoyzHard.Lowercase | engines/hypno/boyz/hard.cpp:108 | lower-casing maps capitals to their small letters and keeps every other character |
| BoyzHard.LowercaseCapitals | engines/hypno/boyz/hard.cpp:81-108 | lower-casing the capitals the prompt shows gives back the lower-case word that was typed |
| BoyzHard.TypedNameIsProfile | engines/hypno/boyz/hard.cpp:75-112 | a lower-case word typed and confirmed with Return is looked up as that very word |
| BoyzHard.DifficultyEvent | engines/hypno/boyz/hard.cpp:143-171 | c or the chump box picks "chump", p or the punk box "punk", b or the bad-ass box "bad ass", a or the cancel box keeps the difficulty; each of these ends the prompt, and any other event changes nothing |
| BoyzHard.DifficultyChosen | engines/hypno/boyz/hard.cpp:117-191 | whatever the input, the menu leaves no difficulty or one of the three |
| BoyzHard.DifficultyDecides | engines/hypno/boyz/hard.cpp:137-175 | a first batch holding one deciding event settles the menu with that event's decision, whatever batches follow |
| BoyzHard.RetryEvent | engines/hypno/boyz/hard.cpp:225-249 | s or its box retries from the checkpoint, t or its box restores full health and restarts at the first level of the checkpoint's territory (an error for a checkpoint in no territory), q or its box asks to quit; each ends the prompt, any other event changes nothing, and once the menu has failed nothing changes |
| BoyzHard.RetryChoices | engines/hypno/boyz/hard.cpp:193-262 | whatever the input, the menu only retries the checkpoint, restarts its territory with full health, or quits; it fails only on a checkpoint in no territory |
| BoyzHard.RetryDecides | engines/hypno/boyz/hard.cpp:219-253 | a first batch holding one deciding event settles the retry menu with that event's decision, whatever batches follow |
| BoyzHard.DrainAfterFailure | engines/hypno/boyz/hard.cpp:229-246 | once the retry menu has failed, the remaining events change nothing |
| BoyzHard.BoyzEngine.RunCheckC3 | engines/hypno/boyz/hard.cpp:264-277 | the next level and scene state are as CheckC3Route says, and the profile is saved to slot 3591 |
| BoyzHard.BoyzEngine.RunCheckHo | engines/hypno/boyz/hard.cpp:279-293 | the next level and scene state are as CheckHoRoute says, and the profile is saved to slot 3592 |
| BoyzHard.BoyzEngine.EndCredits | engines/hypno/boyz/hard.cpp:295-298 | after the credits the next level is the main menu |
| BoyzHard.BoyzEngine.RunMainMenu | engines/hypno/boyz/hard.cpp:49-115 | the name is the lower-cased result of the name prompt; a name without a profile starts at the level after the menu |
| BoyzHard.BoyzEngine.RunDifficultyMenu | engines/hypno/boyz/hard.cpp:117-191 | the difficulty is the prompt's result; with none picked it is back to the main menu, otherwise the profile is saved to slot 0 and the game goes on |
| BoyzHard.BoyzEngine.RunRetryMenu | engines/hypno/boyz/hard.cpp:193-262 | a life is lost; the next level, health and quit request become the menu's decision (`RetryDecision`: no polling when the game is already quitting), or the decision's territory error is returned; name, difficulty, scene state and saves are kept |
| BoyzHard.BoyzEngine.RetryBatch | engines/hypno/boyz/hard.cpp:221-250 | one batch of events is handled in order as `Drain` folds the retry decision over it; a failing event ends the batch with its error; lives and everything else are kept |
| BoyzHard.BoyzEngine.RunCode | engines/hypno/boyz/hard.cpp:32-47 | an unknown name is an error that changes nothing; a known one runs its routine with that routine's whole outcome: the main menu's typed name and next level, the difficulty menu's choice and save, the retry menu's decision or its territory error, and the route and save of the two checks and the credits |

## Left out

- Rendering, sound, music, movies, dialogue boxes, the holomap and the camera are outside the model. Each call into them is recorded as an entry of the `effects` log; what it draws or plays is not modelled.
- The engine freeze that the dialogue and movie opcodes hold while they run is not modelled.
- The script stream is a memory stream. There, a read past the end yields 0 and a seek outside the buffer is clamped. The model turns both into a failure (`ReadPastEnd`, `SeekOutOfRange`) that ends the run. An actor index that names nothing ends the run with `BadActor`; the source looks actors up through `getActor`, which stops the program on an invalid index (its definition is not part of this model). A track index that names nothing ends the run with `BadTrack`; there the source indexes `_sceneTracks` out of range (engines/twine/script/script_life_v1.cpp:1245). An unknown condition code is a failure too; there the source calls `error()` (engines/twine/script/script_life_v1.cpp:393-394).
- The overlay-slot search of `addOverlay` (`Env.addOverlay`, applied to the overlay table by SAY_MESSAGE, USE_INVENTORY and GIVE_GOLD_PIECES), the averaging in `getAverageValue` and the counter clamping in `addKashes`, `addKeys`, `addGas` and `setMagicPoints` are functions of `Env`, given from outside.
- The random jitter of EXPLODE_OBJ's position is not modelled.
- Achievements, autosave and the debug output are not modelled. This includes the one MESSAGE unlocks.
- What `initModelActor` and `initAnim` do to an actor is not modelled. BODY, ANIM and their variants record the request only.
- The hidden flag is stored as the whole operand byte. Its bit width in the actor structure is not modelled.
- ADD_CHOICE appends without a bound. The fixed capacity of the choice array is not modelled.
- LifeInterp.ProcessLifeScript: takes a `fuel` bound on the number of instructions. A script that never reaches a terminator ends with `OutOfFuel`, where the source would loop forever.
- LifeEngine.Measure: the scene-dependent values (zone, collision, carrier, chapter, magic level, keys, gold, behaviour, choice) come from the world as stored. Its contract states the failure cases, the distance, 3D distance, view-cone, game-flag, inventory, collision and life cases, and the 16-bit range of the body, animation, behaviour and choice values.
- ZOOM's scenery conditions beyond the flag it sets are not modelled.
- The context keeps an opcode offset into the actor's buffer where the source keeps a raw pointer (`opcodePtr`). The behaviour is the same.
- Hypno event polling is not modelled. The menus receive their events as a sequence of batches. The game's quit request ends the polling after a batch, as a choice does. The batches running out stands for every other way the source's loop stops.
- Mouse hit-testing is not modelled. A click carries the `Box` it landed in.
- The random death video of the retry menu, the menu images, the palette, the cursor and the sounds are not modelled.
- `listProfiles`, `loadProfile` and `saveProfile` are not modelled as I/O. The main menu receives the set of profile names. Saves are appended to a `saves` log. What `loadProfile` restores into the engine is not modelled.
- `resetSceneState` at the start of the main menu is not part of this model. Its definition lies outside `hard.cpp`, so the scene state is left unchanged.
- `Common::matchString`, `Common::isAlpha`, `String::deleteLastChar` and `String::toLowercase` are not part of this model. Their meaning is assumed: the `#` of a pattern matches one decimal digit, and the letters are the ASCII letters.
- `error()` aborts the program in the source. The model returns an `Err` value instead.
