# svgalib keyboard backend of AdvanceMAME, modelled in Dafny

The Linux svgalib keyboard driver of the Advance project turns the svgalib
keyboard library's per-scancode key state into the project's normalized key
codes (`KEYB_*`, `0 <= code < KEYB_MAX`). Its own logic is small and exact:

- a static list `KEYS` of (normalized code, scancode) pairs, closed by the
  sentinel pair `(KEYB_MAX, 0)`;
- `keyb_svgalib_init`, which refuses to start when svgalib is not running or
  SDL video already is, and otherwise clears the table `map_os_to_code`,
  walks `KEYS` up to the sentinel writing each scancode at its normalized
  code, and starts the svgalib keyboard with `keyboard_init()`;
- `keyb_svgalib_get`, the state of one key: the pause key always reads 0,
  an unmapped key (table entry 0) reads 0 without asking svgalib, any other
  key reads `keyboard_keypressed(scancode)`;
- `keyb_svgalib_all_get`, the same rule for every key into a caller's
  `KEYB_MAX`-byte buffer, with the pause slot cleared at the end;
- `keyb_svgalib_flags`, which advertises no capability.

The model has three modules:

- `CodeTable` (`code_table.dfy`): the table build as functions over any pair
  list — `Prefix`/`Walked` (the pairs before the first sentinel), `Overlay`
  (writing pairs in order, later pairs overwriting earlier ones), `Built` —
  and the lemmas that characterise the built table entry by entry.
- `SvgalibKeys` (`svgalib_keys.dfy`): the `KEYS` list itself, entry by entry,
  written over symbolic constants. `KeyCodes` carries `KEYB_MAX`, the value
  of every `KEYB_*` key the list names and of every `SCANCODE_*` name it
  uses; its only assumption is that every such `KEYB_*` value is below
  `KEYB_MAX`. The menu key's native
  code is the literal 127, as in the source.
- `KeybSvgalib` (`keyb_svgalib.dfy`): the driver state as a class `Svgalib`
  holding the table as an `array<nat>`. `BuildTable` runs the two loops of
  init in place, `Init` adds the guards and the `keyboard_init()` step,
  `AllGet` fills the caller's `array<byte>` in a loop, and `Get` and `Flags`
  are functions.

The calls into svgalib and SDL are inputs. `Platform` holds the answers of
`os_internal_svgalib_get()`, `SDL_WasInit(SDL_INIT_VIDEO)` (false in a build
without SDL video) and `keyboard_init()`; `Init` returns whether it reached
`keyboard_init()` beside its result code. `keyboard_keypressed` in the
current frame is a function `pressed: nat -> nat` from scancode to state.

## Model

| member | source | states |
|---|---|---|
| `CodeTable.Zeros` | advance/linux/ksvgab.c:186-188 | the cleared table has `KEYB_MAX` entries, all 0 ("no mapping") |
| `CodeTable.Prefix` | advance/linux/ksvgab.c:189 | the pairs the walk visits are a prefix of the list with no sentinel in it, followed by a sentinel unless the list ends |
| `CodeTable.TerminatedIff` | advance/linux/ksvgab.c:189-191 | the walk reaches a sentinel and writes only inside the table exactly when a sentinel exists and every pair before the first one has a normalized code below `KEYB_MAX` |
| `CodeTable.Walked` | advance/linux/ksvgab.c:189 | the walk stops at the first pair whose normalized code is `KEYB_MAX`; every pair before it indexes the table |
| `CodeTable.Overlay` | advance/linux/ksvgab.c:189-191 | writing pairs into a table keeps its size |
| `CodeTable.OverlayUntouched` | advance/linux/ksvgab.c:189-191 | an entry named by no written pair keeps its previous value |
| `CodeTable.OverlayLastWins` | advance/linux/ksvgab.c:189-191 | an entry named by several written pairs holds the native code of the last of them |
| `CodeTable.Built` | advance/linux/ksvgab.c:186-191 | the built table has exactly `KEYB_MAX` entries |
| `CodeTable.BuiltUnlisted` | advance/linux/ksvgab.c:186-191 | after the build, a normalized code that no pair before the sentinel names has entry 0 |
| `CodeTable.BuiltLastWins` | advance/linux/ksvgab.c:189-191 | after the build, for each pair before the sentinel not overridden by a later one, `table[os] == code`: the last pair for a code wins |
| `CodeTable.BuiltIgnoresTail` | advance/linux/ksvgab.c:189-191 | pairs after the first sentinel are never read: appending anything after it changes neither where the walk stops nor the table |
| `SvgalibKeys.Keys` | advance/linux/ksvgab.c:46-156 | the `KEYS` list: one pair per listed key, in source order, closed by `(KEYB_MAX, 0)` |
| `SvgalibKeys.KeysWalk` | advance/linux/ksvgab.c:49-155 | when every `KEYB_*` value is below `KEYB_MAX`, the build walk over `KEYS` writes in bounds and stops exactly at its closing sentinel |
| `SvgalibKeys.KeysUnlisted` | advance/linux/ksvgab.c:186-191 | a code below `KEYB_MAX` that is the code of no listed key has table entry 0 after the build |
| `SvgalibKeys.KeysPauseMapped` | advance/linux/ksvgab.c:142 | if no other key shares `KEYB_PAUSE`, the built table maps `KEYB_PAUSE` to `SCANCODE_BREAK` |
| `KeybSvgalib.ToByte` | advance/linux/ksvgab.c:239 | a native answer stored into the unsigned-char buffer keeps its value modulo 256, so answers below 256 are kept exactly |
| `KeybSvgalib.Flags` | advance/linux/ksvgab.c:255-258 | the driver advertises no capability flag: always 0 |
| `KeybSvgalib.Svgalib.constructor` | advance/linux/ksvgab.c:158 | the static driver state starts with a `KEYB_MAX`-entry table of zeros |
| `KeybSvgalib.Svgalib.BuildTable` | advance/linux/ksvgab.c:186-191 | the two loops leave the table equal to `Built` of the pair list |
| `KeybSvgalib.Svgalib.Init` | advance/linux/ksvgab.c:165-199 | without svgalib, or with SDL video up, answers -1, never calls `keyboard_init()` and leaves the table as it was; otherwise builds the table from `KEYS` and calls `keyboard_init()`, answering -1 if it fails (table left built) and 0 if it succeeds; 0 exactly when both guards pass and `keyboard_init()` answers 0 |
| `KeybSvgalib.Svgalib.Get` | advance/linux/ksvgab.c:208-228 | for `code < KEYB_MAX`: the pause key reads 0, a key with table entry 0 reads 0, any other key reads the native state of its scancode |
| `KeybSvgalib.Svgalib.GetIgnoresNative` | advance/linux/ksvgab.c:216-225 | for the pause key and for unmapped keys the answer is 0 whatever the native state |
| `KeybSvgalib.Svgalib.PauseDisabled` | advance/linux/ksvgab.c:216-218 | if no other key shares `KEYB_PAUSE`, after init's build `KEYB_PAUSE` is mapped to `SCANCODE_BREAK` in the table and still reads 0 in every native state |
| `KeybSvgalib.Svgalib.UnlistedReleased` | advance/linux/ksvgab.c:220-225 | after init's build, a code of no listed key is unmapped and reads 0 in every native state |
| `KeybSvgalib.Svgalib.AllGet` | advance/linux/ksvgab.c:230-246 | writes only slots `0..KEYB_MAX-1` of the buffer, each equal to `Get` of that code under the same native state (modulo 256, and exactly when native answers are below 256), pause slot included; the table is unchanged |

## Left out

- `keyb_svgalib_poll` and `keyb_svgalib_done`: each is one call into svgalib (`keyboard_update`, `keyboard_close`) with no logic of its own.
- `keyb_svgalib_load` and `keyb_svgalib_reg`: empty operations on the configuration subsystem.
- The `DEVICE` list and the `keyb_svgalib_driver` record: static registration data with no behaviour.
- Logging and error messages (`log_std`, `log_debug`, `error_nolog_cat`): output only.
- svgalib and SDL themselves (`os_internal_svgalib_get`, `SDL_WasInit`, `keyboard_init`, `keyboard_keypressed`): foreign code, modelled by their answers only; the `USE_VIDEO_SDL` build switch is folded into `Platform.sdlVideoInitialized`.
- The numeric values of `KEYB_MAX`, `KEYB_*` and `SCANCODE_*`: they come from headers that are not part of this model, so they are parameters (`KeyCodes`).
- `KeybSvgalib.Svgalib.Get`: the native answer is taken as a natural number; a negative `int` from `keyboard_keypressed` turned into a 32-bit `unsigned` is not modelled.
- `KeybSvgalib.Svgalib.AllGet`: for the same reason, storing a negative `int` answer of `keyboard_keypressed` into the `unsigned char` buffer is not modelled.
- `KeybSvgalib.ToByte`: takes a natural number, so the conversion of a negative `int` to `unsigned char` is not modelled.
- `KeybSvgalib.Svgalib.Get`: the source only asserts `code < KEYB_MAX`, so this is a precondition here rather than an error result.
- `SvgalibKeys.KeysPauseMapped`: states the pause entry only; the other listed keys are covered by the generic `CodeTable.BuiltLastWins`, not one lemma per key.
- The `keyb_id` and `disable_special` arguments of init are accepted and ignored, as in the source, which only logs them.
