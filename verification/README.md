# Hero builder: game controls and character configuration

A Dafny model of the two state-holding hooks of the hero builder, a browser
demo in which a user assembles a hero and then walks, jumps and (with the
flying ability) hovers in a small 3D scene.

- `character.dfy` (module `Character`) models `useCharacterCustomization`:
  the `CharacterState` record with its four body-part ids, four colours and
  optional super ability, the option tables (body parts, abilities, palette),
  the initial character, the three one-field updates and the two lookups.
- `game_controls.dfy` (module `GameControls`) models `useGameControls`: the
  `GameControls` record and one pure function per `setControls` callback:
  key down, key up, jump-timer tick, fall-timer tick, movement-timer tick and
  reset.
- `game_session.dfy` (module `GameSession`) runs those functions one event at
  a time. A jump-timer tick applies only while the player is jumping. A
  fall-timer tick applies only while the player is falling and not jumping.
  The session remembers the height at which the current jump started. Over
  arbitrary event sequences it proves that jumping and falling are exclusive,
  that the height stays non-negative and that a jump stays between its start
  height and its peak.
- `options.dfy` (module `Options`) holds the optional-value type and the
  first-match search that JavaScript's `Array.prototype.find` performs.

Conventions. Coordinates are exact `real`s. A rotation is a rational multiple
of pi, so a stored `0.5` means the program's `Math.PI * 0.5`. Timer progress
is given as the milliseconds elapsed since the timer started; progress is
elapsed / 500 for the jump and elapsed / 300 for the fall. The jump tick
receives the value of `Math.sin(progress * Math.PI)` as a parameter `sine`.
Event sequences are well formed when every jump tick has a non-negative
elapsed time and its `sine` lies in [0, 1], the range of the sine on
[0, pi). The hook's `superAbility` argument is a
parameter `ability: Option<SuperAbility>`, where `None` stands for `null`.

## Model

| member | source | states |
|---|---|---|
| `GameControls.KeyDown` | src/hooks/useGameControls.tsx:42-94 | An auto-repeat or an unbound code leaves the state unchanged. A movement key sets its own intent flag and changes nothing else. Space behaves as `PressSpace`. |
| `GameControls.PressSpace` | src/hooks/useGameControls.tsx:76-90 | Space starts a jump only from the ground, meaning neither jumping nor falling; it leaves `isFalling` alone. It flips `isAbilityActive` exactly when an ability is assigned. Position, facing and intents are unchanged. |
| `GameControls.KeyUp` | src/hooks/useGameControls.tsx:96-129 | A movement key clears only its own intent flag. Any other code, Space included, leaves the state unchanged. |
| `GameControls.JumpTick` | src/hooks/useGameControls.tsx:143-158 | Once the elapsed time reaches the 500 ms duration, the tick ends the jump and starts a fall, and the position does not move. Before that, the height is the start height plus 2 times the sine. x, z, facing, ability flag and intents never change. |
| `GameControls.FallTick` | src/hooks/useGameControls.tsx:169-187 | When 300 ms have elapsed or the height is at most 0, the player lands at height 0 and is no longer falling. Otherwise the height drops strictly by at most 0.1 and stays at or above 0. The other fields are unchanged. |
| `GameControls.MoveTick` | src/hooks/useGameControls.tsx:211-265 | With no intent held the state is returned as is. Otherwise x moves by 0.1·(right−left) and z by 0.1·(backward−forward). The facing is the compass angle of the resolved direction, where backward beats forward and right beats left. The height becomes max(0, y + lift). Flags and intents are unchanged. |
| `GameControls.ResetControls` | src/hooks/useGameControls.tsx:272-287 | The reset literal equals the initial state of lines 27-39. |
| `GameControls.SetHeld` | src/hooks/useGameControls.tsx:50-53 | Writing one intent flag leaves the other three as they were. |
| `GameControls.ClassifyMoveKeys` | src/hooks/useGameControls.tsx:47-75 | A code means a direction exactly when it is one of that direction's two codes: W/ArrowUp, S/ArrowDown, A/ArrowLeft or D/ArrowRight. |
| `GameControls.MoveKeyPressRelease` | src/hooks/useGameControls.tsx:42-129 | Movement keys are level-triggered. Pressing a key that is not held and then releasing it restores the state exactly. |
| `GameControls.MoveKeyDownIdempotent` | src/hooks/useGameControls.tsx:48-75 | A second key-down of a held movement key changes nothing. |
| `GameControls.SpaceTogglesAbility` | src/hooks/useGameControls.tsx:76-128 | Space is edge-triggered. One press flips the ability flag when an ability is assigned, two presses restore it, and releasing Space changes nothing. |
| `GameControls.UnboundKeyUp` | src/hooks/useGameControls.tsx:96-128 | A key-up of any code outside the eight movement codes is the identity. |
| `GameControls.FacingFollowsTravel` | src/hooks/useGameControls.tsx:216-242 | When no opposite pair is held, the facing after a movement tick is the compass angle of the actual displacement. This covers the four single directions (0, π, π/2, −π/2) and the four diagonals (±π/4, ±3π/4). |
| `GameControls.OppositeKeys` | src/hooks/useGameControls.tsx:216-242 | Holding forward and backward, with left and right both held or both released, leaves the position unchanged. The facing is then π, or −3π/4 when left and right are both held, since the later assignments win. |
| `GameControls.LiftBounds` | src/hooks/useGameControls.tsx:244-261 | A movement tick keeps the height at or above 0 and never lowers it. It raises the height, by exactly 0.05, if and only if all of these hold: the player is moving, the flying ability is active, the player is neither jumping nor falling, and the height is at most 3. It never lifts above max(y, 3.05). |
| `GameControls.RepeatedMoves` | src/hooks/useGameControls.tsx:208-266 | Without the lift, n ticks of held intents move the player n steps along the net direction at constant height. After at least one tick the player faces the resolved compass direction. |
| `GameControls.ForwardTenTicks` | src/hooks/useGameControls.tsx:209-224 | From the initial state, pressing W and then running ten movement ticks ends at (0, 0, −1) facing 0. |
| `GameControls.FallLands` | src/hooks/useGameControls.tsx:164-190 | A fall from height at most 0.1·k lands at height 0 within k+1 ticks, whatever the timer reads. |
| `GameControls.JumpStaysInBand` | src/hooks/useGameControls.tsx:132-158 | If the elapsed time is in [0, 500) and the sine is in [0, 1], a jump tick keeps the height between the start height and start height + 2. |
| `GameSession.Step` | src/hooks/useGameControls.tsx:132-192 | A jump-timer tick while not jumping, and a fall-timer tick unless falling and not jumping, change nothing, because those timers run only in their phase. Key-ups and movement ticks keep the remembered jump start. A reset yields the initial controls. |
| `GameSession.StepKeepsBand` | src/hooks/useGameControls.tsx:137-153 | A well-formed event keeps a jumping player's height between the height the jump started from (line 137) and that height plus 2 (line 153). |
| `GameSession.RunKeepsBand` | src/hooks/useGameControls.tsx:137-153 | After any well-formed history, a jumping player's height lies between the remembered start height and that height plus 2. |
| `GameSession.StepFollowsMachine` | src/hooks/useGameControls.tsx:76-192 | Each event keeps the jumping and falling flags exclusive. Each event moves the phase only along Grounded→Jumping (key down), Jumping→Falling (jump timer), Falling→Grounded (fall timer) or any→Grounded (reset). Landing from a fall happens at height 0. |
| `GameSession.StepKeepsAltitude` | src/hooks/useGameControls.tsx:143-261 | A well-formed event keeps the height and the remembered jump start at or above 0. |
| `GameSession.RunExclusive` | src/hooks/useGameControls.tsx:76-192 | After any sequence of events, `isJumping && isFalling` is false. |
| `GameSession.RunKeepsAltitude` | src/hooks/useGameControls.tsx:143-261 | After any sequence of well-formed events, the height is at or above 0. |
| `GameSession.Reachable` | src/hooks/useGameControls.tsx:27-39 | Every state reachable from the initial state by well-formed events has exclusive vertical flags, a non-negative height and, while jumping, a height within its jump's band. |
| `GameSession.ResetRestoresInitial` | src/hooks/useGameControls.tsx:272-287 | After any history, a reset yields exactly the initial controls. |
| `GameSession.JumpEndsInFall` | src/hooks/useGameControls.tsx:146-150 | A jump-timer tick at or past 500 ms turns the jump into a fall and leaves the position unchanged. |
| `GameSession.SpaceStartsJump` | src/hooks/useGameControls.tsx:76-137 | Space on the ground starts a jump, and the jump timer records the current height as the start. |
| `Character.InitialCharacter` | src/hooks/useCharacterCustomization.tsx:89-101 | Each part starts at the first id of its table and no ability is set. The colours are gray, except for a blue torso. |
| `Character.UpdateBodyPart` | src/hooks/useCharacterCustomization.tsx:104-109 | The chosen part takes the new id. Every other part, all colours and the ability are unchanged. |
| `Character.UpdateBodyPartColor` | src/hooks/useCharacterCustomization.tsx:112-120 | Only the chosen part's colour changes. The other colours, all part ids and the ability are unchanged. |
| `Character.SetSuperAbility` | src/hooks/useCharacterCustomization.tsx:123-128 | The ability takes the new value. Part ids and colours are unchanged. |
| `Character.GetSelectedOption` | src/hooks/useCharacterCustomization.tsx:131-134 | The result is an option of the part's table carrying the chosen id. It is none exactly when no option of the table has that id. |
| `Character.GetSelectedAbility` | src/hooks/useCharacterCustomization.tsx:137-142 | The result is none exactly when no ability is chosen. Otherwise it is the ability-table entry whose id names the chosen ability. |
| `Character.AbilityOptionExists` | src/hooks/useCharacterCustomization.tsx:52-71 | Each of the three abilities has an entry in the ability table. |
| `Character.BodyPartIdsDistinct` | src/hooks/useCharacterCustomization.tsx:28-49 | No two options of a body-part table share an id. |
| `Character.SelectAfterUpdate` | src/hooks/useCharacterCustomization.tsx:104-134 | After a part is set to an option's id, looking up that part yields exactly that option. |
| `Character.InitialSelectionsResolve` | src/hooks/useCharacterCustomization.tsx:89-93 | For the initial character, each part's lookup finds the first option of its table. |
| `Character.InitialColorsAvailable` | src/hooks/useCharacterCustomization.tsx:74-101 | Each default colour is one of the palette's colours. |
| `Character.SetSuperAbilityIdempotent` | src/hooks/useCharacterCustomization.tsx:123-128 | Setting the same ability twice equals setting it once. |
| `Character.UpdateBodyPartToSameIsIdentity` | src/hooks/useCharacterCustomization.tsx:104-109 | Setting a part to its current id changes nothing. |
| `Character.UpdateBodyPartColorToSameIsIdentity` | src/hooks/useCharacterCustomization.tsx:112-120 | Recolouring a part with its current colour changes nothing. |
| `Character.ColorUpdateKeepsSelection` | src/hooks/useCharacterCustomization.tsx:112-134 | A colour update never changes the option any part's lookup returns. |
| `Options.FindIndex` | src/hooks/useCharacterCustomization.tsx:133 | The result is the index of the first element satisfying the predicate, or none exactly when no element satisfies it. |
| `Options.Find` | src/hooks/useCharacterCustomization.tsx:139-141 | The result is the first element satisfying the predicate, or none exactly when no element satisfies it. |

## Left out

- Timers, clocks and listener registration are left out: `setInterval`, `clearInterval`, `Date.now()` and `addEventListener` (useGameControls.tsx lines 142, 159-161, 188-190, 194-205 and 266-268). Elapsed time and key events are explicit inputs of the step functions.
- Several intervals run side by side in the program, and their callbacks can capture stale state. For example, the Space handler reads `controls` from its closure at line 78. The model applies events one at a time, each to the current state.
- `Math.sin` is a floating-point transcendental. Its value is a parameter of the jump tick, and well-formed histories keep it in [0, 1].
- GameSession.RunKeepsAltitude: assumes `Date.now()` never goes backwards, so every jump tick has a non-negative elapsed time. If the clock were set back, the progress would be negative and its sine below 0. The jump height at line 153 has no clamp at 0, unlike line 260, so the player could then go below ground.
- Floating-point rounding is not modelled: 0.1, 0.05 and the angle constants are exact reals.
- `console.log` calls are not modelled. They have no effect on state.
- GameControls.JumpTick: does not compute the jump curve itself. The height is stated in terms of the `sine` parameter, not in terms of `sin(progress·π)`.
- Character.GetSelectedAbility: the program returns `null` when no ability is chosen and `find`'s `undefined` when nothing matches. Both are `None` here, and the second case is proved not to happen.
- Rendering, the customisation and game screens, transition overlays, application bootstrap and sound playback are not part of this model. These are CharacterModel.tsx, CustomizationControls.tsx, GameControls.tsx, GameScreen.tsx, Index.tsx, TransitionOverlay.tsx, main.tsx and soundEffects.ts.
- The hook has no coins, platforms, platform breaking, coin attraction, fly-up or fly-down keys, and no separate ability key. Space both jumps and toggles the ability, and the only flight is the 0.05 lift of the movement tick.
