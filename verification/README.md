# Pong kernel core in Dafny

A model of the logic at the heart of a small bare-metal x86-64 kernel that runs
a game of pong from two interrupt handlers:

- **Allocator** (`allocator.dfy`): the global bump allocator. It is a fixed
  100 KiB arena at a base address set once by `init_heap`. `alloc` rounds the
  cursor up to the layout's alignment and reserves the bytes, or returns null
  when the arena is exhausted. `dealloc` reclaims nothing.
- **Pong** (`pong.dfy`): the game's state, one `Game` record field for each
  atomic static. Also its transitions: `init_game`, the key setters,
  `start_game`, the two left-paddle moves, `reset_ball`, and the simulation
  step `update_game`. The step runs auto-release, the left paddle, the right
  paddle's oscillation, ball integration, the wall bounce, the paddle hits,
  and scoring.
- **PongInvariant** (`pong_invariant.dfy`): the state invariant that
  `init_game` sets up and every tick keeps. Also the life of a key press
  under auto-release, the serve direction after a point, and worked single
  ticks.
- **Kernel** (`kernel.dfy`): the keyboard callback `key`, which routes decoded
  keys to the game, and the timer callback `tick`. Also boot (the statics'
  initial values followed by `init_game`) and arbitrary interleavings of the
  two callbacks.

Each handler runs to completion before the next one starts, so every
operation is a pure function from the whole state before the call to the
whole state after it. The game's `i32` fields and the allocator's `usize`
values are unbounded integers.

Points of the code's behaviour that are easy to misread, as the model states
them:

- A ball at X 15 moving left at speed 2 lands at X 13. That is left of the
  left paddle's band [20, 30], so the code registers no hit and no point.
  `PongInvariant.LeftBandMissExample` states this, and
  `PongInvariant.LeftPaddleHitExample` shows a hit from X 25.
- A pressed key stays effective for five ticks and is released on the sixth.
  The release happens on the tick whose counter value before the increment is
  at least 5.
- `start_game` only sets the active flag. It resets neither positions nor
  scores. The space key calls it and also releases W and S.

## Model

| member | source | states |
|---|---|---|
| `Allocator.AlignUp` | kernel/src/allocator.rs:15-17 | For a power-of-two alignment the result is a multiple of `align`, at least `addr`, and less than `addr + align` |
| `Allocator.AlignUpIsLeast` | kernel/src/allocator.rs:15-17 | No multiple of `align` at or above `addr` is smaller than `AlignUp(addr, align)` |
| `Allocator.InitHeap` | kernel/src/allocator.rs:42-46 | The arena starts at the given base with offset 0, which satisfies the offset bound |
| `Allocator.Alloc` | kernel/src/allocator.rs:20-35 | Fails exactly when aligned cursor + size − base exceeds 102400, and then leaves the heap unchanged. On success the pointer is aligned and lies in [cursor, cursor + align), so it is the cursor rounded up to the alignment, and the block ends within the arena. The new cursor is the block's end. The base is kept, the offset never decreases, and offset ≤ 102400 is preserved |
| `Allocator.Dealloc` | kernel/src/allocator.rs:37-39 | Leaves base and offset unchanged |
| `Allocator.AllocAll` | kernel/src/allocator.rs:20-35 | A run of successive `alloc` calls, each seeing the heap the previous left, returns one pointer per request, keeps the base, never moves the cursor back, and from a valid heap keeps offset ≤ 102400 |
| `Allocator.AllocAllBlocks` | kernel/src/allocator.rs:24-33 | For any sequence of allocations from a valid heap, every returned block is aligned and lies between the cursor before the run and the cursor after it |
| `Allocator.AllocAllDisjoint` | kernel/src/allocator.rs:24-33 | Over any sequence of allocations from a valid heap, any two returned blocks are in call order by address and do not overlap |
| `Pong.Statics` | kernel/src/pong.rs:18-37 | Before `init_game`: paddles at 210, ball at (315,235) with velocity (2,2), scores 0–0, inactive, no key held, counter 0, right paddle heading down |
| `Pong.InitGame` | kernel/src/pong.rs:40-57 | Paddles at 210, ball at (315,235) with velocity (2,2), scores 0–0, active, both keys released, right paddle heading down. The release counter is unchanged |
| `Pong.SetKeyW` | kernel/src/pong.rs:69-74 | Sets the W flag to `pressed`. A press zeroes the release counter and a release leaves it unchanged. No other field changes |
| `Pong.SetKeyS` | kernel/src/pong.rs:76-81 | Same as `SetKeyW` for the S flag |
| `Pong.StartGame` | kernel/src/pong.rs:83-85 | Sets the active flag and changes nothing else: no reset of positions or scores |
| `Pong.MoveLeftPaddleUp` | kernel/src/pong.rs:87-96 | No-op when inactive. Otherwise the left paddle Y becomes max(0, Y − 5), so it is never negative. No other field changes |
| `Pong.MoveLeftPaddleDown` | kernel/src/pong.rs:98-107 | No-op when inactive. Otherwise the left paddle Y becomes min(420, Y + 5), so it never exceeds 420. No other field changes |
| `Pong.StepRightPaddle` | kernel/src/pong.rs:132-160 | Moves by 3 toward the current direction, clamped to [0, 420]. At the bottom edge the direction is up and at the top edge it is down. From Y in [0,420] and direction ±1, both stay in range, Y changes by at most 3, and the direction is kept away from the edges |
| `Pong.Players` | kernel/src/pong.rs:114-160 | The counter is restarted exactly when its pre-increment value is ≥ 5, and otherwise incremented. Flags survive only if that value is < 5. The left paddle moves up then down by the surviving flags. The right paddle takes one oscillation step. Ball and scores are untouched |
| `Pong.Flight` | kernel/src/pong.rs:162-174 | The ball moves by its velocity. The vertical velocity is negated exactly when the new Y is ≤ 0 or ≥ 470 |
| `Pong.Rebound` | kernel/src/pong.rs:185-187 | The horizontal speed grows by exactly 1, and the sign is flipped when the velocity is non-zero |
| `Pong.Paddles` | kernel/src/pong.rs:176-199 | A left hit puts the ball at X 30 and rebounds it. Otherwise a right hit puts it at X 600 and rebounds it. Otherwise the ball is unchanged. At most one hit takes effect per tick |
| `Pong.ResetBall` | kernel/src/pong.rs:227-232 | Ball at (315,235) with vertical velocity 2. The horizontal velocity has magnitude 2 and is positive exactly when the stored velocity was negative. Nothing else changes |
| `Pong.Settle` | kernel/src/pong.rs:201-222 | X ≤ 0 scores one for the right player and X ≥ 630 one for the left player, and either resets the ball from the stored velocity. Otherwise the computed ball is stored |
| `Pong.UpdateGame` | kernel/src/pong.rs:109-225 | No-op while inactive, and the active flag never changes. Counter and auto-release as in `Players`, and the counter stays in [0,5]. The left paddle moves by the surviving flags within [0,420]. The right paddle keeps Y in [0,420], direction ±1, and moves by at most 3. A left hit (against the moved left paddle) gives X 30 and a right hit (against the pre-move right paddle) gives X 600. Either rebounds the ball and scores nothing. At most one score, by exactly 1, and the right player scores exactly when the ball ends at X ≤ 0, the left exactly when it ends at X ≥ 630. On a score the ball resets to (315,235), vy 2, vx ±2 opposite to the stored pre-tick vx. Otherwise 0 < X < 630. The vertical velocity is only negated or reset to 2 |
| `PongInvariant.InitGameEstablishesInv` | kernel/src/pong.rs:40-57 | `init_game` from a counter in [0,5] yields a state satisfying the game invariant |
| `PongInvariant.InitGameAtBootOnlyActivates` | kernel/src/pong.rs:18-57 | On the statics' initial values `init_game` only sets the active flag, and those values already satisfy the invariant |
| `PongInvariant.PaddlesKeepVertical` | kernel/src/pong.rs:176-199 | The paddle-hit stage changes neither the ball's Y nor its vertical velocity, and leaves a non-zero horizontal velocity non-zero |
| `PongInvariant.UpdateGamePreservesInv` | kernel/src/pong.rs:109-225 | One tick keeps the invariant: paddles in [0,420], direction ±1, counter in [0,5], 0 < ball X < 630, vx ≠ 0, ball Y in [−1,471] with vy = ±2 pointing inward at a wall, non-negative scores |
| `PongInvariant.TicksPreserveInv` | kernel/src/pong.rs:109-225 | Any number of ticks keeps the invariant. Each score never decreases, and their total grows by at most one per tick |
| `PongInvariant.TickKeepsKeys` | kernel/src/pong.rs:114-130 | In an active game whose counter is below 5, a tick keeps both flags and the active flag, increments the counter, and moves the left paddle by the held flags |
| `PongInvariant.HeldKeyLastsFiveTicks` | kernel/src/pong.rs:114-122 | In an active game, for as many ticks as keep the counter at most 5 (five after a fresh press), both flags stay unchanged and the counter grows by one per tick |
| `PongInvariant.HeldWMovesPaddleUp` | kernel/src/pong.rs:114-127 | Over those ticks, with W held alone, the left paddle goes from Y to max(0, Y − 5n) after n ticks |
| `PongInvariant.HeldSMovesPaddleDown` | kernel/src/pong.rs:114-130 | Over those ticks, with S held alone, the left paddle goes from Y to min(420, Y + 5n) after n ticks |
| `PongInvariant.AutoReleaseOnSixthTick` | kernel/src/pong.rs:115-122 | The sixth tick after a press clears both flags and zeroes the counter, and the left paddle does not move |
| `PongInvariant.ServeTowardsScorer` | kernel/src/pong.rs:201-232 | Under the invariant, a point for the right player serves the ball at +2 and a point for the left player serves it at −2 |
| `PongInvariant.LeftBandMissExample` | kernel/src/pong.rs:168-188 | Ball (15,240), velocity (−2,0): one tick leaves it at X 13 with vx −2, with no hit and no score |
| `PongInvariant.LeftPaddleHitExample` | kernel/src/pong.rs:176-188 | Ball (25,240), velocity (−2,0), left paddle 210: one tick bounces it to X 30 with vx +3 and no score |
| `PongInvariant.RightScoresExample` | kernel/src/pong.rs:201-208 | Ball (2,240), velocity (−3,0): one tick scores for the right player and resets the ball to (315,235) with velocity (2,2) |
| `Kernel.HandleKey` | kernel/src/main.rs:115-157 | 'w' or raw W sets the W flag and zeroes the counter, and 's' or raw S does the same for S. Space sets active and clears both flags, and 'q' clears both flags. Both leave the counter unchanged. Any other key changes nothing. No key moves a paddle or the ball, or touches a score |
| `Kernel.HandleKeyIdempotent` | kernel/src/main.rs:115-157 | Handling a key twice equals handling it once |
| `Kernel.HandleKeyPreservesInv` | kernel/src/main.rs:115-157 | Every key keeps the game invariant |
| `Kernel.Tick` | kernel/src/main.rs:110-113 | The timer callback is exactly one `update_game` step |
| `Kernel.Boot` | kernel/src/main.rs:86-87 | `init_game` on the statics' initial values gives an active game with counter 0 that satisfies the invariant |
| `Kernel.RunPreservesInv` | kernel/src/main.rs:110-157 | Any sequence of ticks and keys keeps the invariant, and neither score decreases |
| `Kernel.BootedGameInvariant` | kernel/src/main.rs:86-103 | After boot and any interrupts, the invariant holds, including a vertical ball speed of exactly 2 |
| `Kernel.PressWThenIdle` | kernel/src/main.rs:122-126 | After W (S not held) and no further input, the paddle rises by one clamped step on each of five ticks, and the sixth tick releases W without moving it |
| `Kernel.PressSThenIdle` | kernel/src/main.rs:127-130 | The same for S, downwards |

## Left out

- Drawing: `draw_game`, `draw_scores` and the instruction text printed by `init_game`. Their framebuffer and text output has no effect on the game's state.
- The heap use of rendering. `draw_scores` builds its text with `format!` (kernel/src/pong.rs:246), which allocates from the bump arena, and dropping the text reclaims nothing. It runs from `init_game` and on every active tick, so each tick consumes at least the text's length (12 bytes or more) of the 100 KiB arena. After at most some thousands of ticks `alloc` fails and the formatting aborts through the allocation-error handler. The game model treats drawing as free, so `Kernel.BootedGameInvariant` and the other multi-tick properties hold only where that exhaustion has not been reached. The allocator model itself covers exhaustion: `Allocator.Alloc` fails once the arena is used up.
- Serial and screen logging, including the echo of keys the router does not act on. These are output only.
- `kernel_main` and `start`: memory-map scan, raw memory writes, CR3 read, page-table mapper, GDT, APIC and handler-table setup. These are hardware bring-up through foreign crates. The two boxed test values allocated at boot are left out with them.
- Atomics, memory orderings, and torn reads across fields. Handlers run one at a time, so each is modelled as one sequential transition.
- Machine-integer width. The game's `i32` fields (scores, ball velocity after very many hits) and the allocator's `usize` sums (`addr + align - 1`, `aligned_offset + size`) are unbounded here, so wrap-around and overflow panics are not modelled.
- Allocator.AlignUp: modelled as ceiling division times `align`, not as the source's bit mask `& !(align - 1)`. The two agree for power-of-two alignments without overflow. A bit-vector proof of the mask form was too costly for the solver.
- Allocator.Alloc: failure is `None`. The source returns the null pointer, which a successful allocation at address 0 could not be told apart from.
- The `GlobalAlloc`/`Layout` plumbing and raw pointers. Addresses are `nat` and a layout is a `Request` of size and alignment.
- The statics `KEY_W_ACTIVE`/`KEY_S_ACTIVE` in main.rs. Nothing reads or writes them.
