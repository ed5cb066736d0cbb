# MidiLoader, modelled in Dafny

`MidiLoader` (src/midi-loader.js) turns live MIDI input into two byte buffers that
the renderer samples as textures:

- a 256x128 grid (`_midiArray`): every message `[status, data1, data2]` stores
  `data2` at `status + data1 * 256`, so each (status, data1) pair has its own cell;
- a 128-slot note buffer (`_noteArray`): a note-on (status 0x90-0x9F) stores twice
  the velocity at the note's slot, a note-off (status 0x80-0x8F) stores 0 there;
- a `needsUpdate` flag per texture, set by every write to its buffer;
- an enable flag, false at construction, set by `enable`, cleared by `disable`.
  While it is false, messages are dropped.

Both buffers are `Uint8Array`s, so a stored value is kept modulo 256
(`StoreByte`); a velocity of 128 or more doubles past 255 and wraps.

The project has two modules:

- `MidiLoaderSpec` (midi_spec.dfy) states the loader on values. `LoaderState`
  holds both buffers and the three flags. `Receive` is the effect of one message.
  `Apply` is the effect of one event (enable, disable or a message). `Run` is a
  whole history of events. Over it, the module proves what every cell holds after
  any history. A grid cell holds the value of the last message applied to its
  (status, data1) pair; a note slot holds the value of the last note-on or
  note-off applied to its note. A cell nothing wrote keeps its starting value,
  which is zero for a fresh loader. The dirty flags say exactly whether such a
  write happened. A message is applied when it arrives while the loader is
  enabled (`Applied`).
- `MidiLoaderImpl` (midi_loader.dfy) is the class itself. It has the two buffers
  as arrays, updated in place, and the flags as fields. Each method's `ensures`
  equates the new state (`Snapshot()`) with `Receive` or `Apply` of the old state,
  so every lemma of `MidiLoaderSpec` applies to the object. Three client methods
  replay the module's documented scenarios against the class contracts.

The grid offset follows the code, `status + data1 * 256`. So the note-on
`[0x90, 64, 90]` writes cell `144 + 64 * 256` and the note-off `[0x80, 64, 0]`
writes cell `128 + 64 * 256` (`NoteOnThenOff`).

## Model

| member | source | states |
|---|---|---|
| MidiLoaderSpec.StoreByte | src/midi-loader.js:50-55 | a value stored into a `Uint8Array` cell is in [0, 256) and congruent to the stored integer modulo 256, and equal to it when it already fits a byte |
| MidiLoaderSpec.DoubledVelocity | src/midi-loader.js:55 | doubling a 7-bit velocity is stored unchanged; a velocity of 128..255 doubled wraps to `2v - 256` |
| MidiLoaderSpec.Offset | src/midi-loader.js:49-50 | for status < 256 and data1 < 128 the grid offset lies inside the 32768-cell buffer, and its remainder and quotient by 256 give back status and data1, so distinct pairs never share a cell |
| MidiLoaderSpec.NoteValue | src/midi-loader.js:53-63 | a note-off leaves 0 in its slot; a note-on with a 7-bit velocity leaves twice the velocity |
| MidiLoaderSpec.Initial | src/midi-loader.js:16-20 | a fresh loader has a 32768-cell grid and a 128-slot note buffer, all zero, is disabled, and neither texture is dirty |
| MidiLoaderSpec.Receive | src/midi-loader.js:44-64 | handling a message keeps both buffer sizes and never changes the enable flag |
| MidiLoaderSpec.ReceiveWhenDisabled | src/midi-loader.js:45-47 | when disabled, a message leaves both buffers and both dirty flags unchanged |
| MidiLoaderSpec.ReceiveWritesOneGridCell | src/midi-loader.js:49-51 | when enabled, the cell of (status, data1) receives data2 modulo 256, every other grid cell is unchanged, and the grid texture is dirty |
| MidiLoaderSpec.ReceiveNoteOn | src/midi-loader.js:53-57 | when enabled with status in [0x90, 0xA0), the note buffer changes only at data1, to `data2 * 2` modulo 256 (exactly `data2 * 2` for a 7-bit velocity), and the note texture is dirty |
| MidiLoaderSpec.ReceiveNoteOff | src/midi-loader.js:59-63 | when enabled with status in [0x80, 0x90), the note buffer changes only at data1, to 0, and the note texture is dirty |
| MidiLoaderSpec.ReceiveOtherStatus | src/midi-loader.js:49-63 | a status outside [0x80, 0xA0) leaves the note buffer and its dirty flag unchanged |
| MidiLoaderSpec.ReceiveKeepsOtherNotes | src/midi-loader.js:53-63 | a message that is not a note-on or note-off for note n leaves slot n unchanged |
| MidiLoaderSpec.Apply | src/midi-loader.js:44-84 | enable, disable and message events all keep both buffer sizes |
| MidiLoaderSpec.Run | src/midi-loader.js:44-84 | after any history the buffers keep their sizes and the enable flag is the one set by the last enable or disable, or the starting flag if there was none |
| MidiLoaderSpec.GridHoldsLatest | src/midi-loader.js:49-51 | after any history every grid cell holds data2 (mod 256) of the last applied message for its (status, data1) pair, and its starting value if no applied message named that pair |
| MidiLoaderSpec.NotesHoldLatest | src/midi-loader.js:53-63 | after any history every note slot holds the value of the last applied note-on or note-off for its note, and its starting value if there was none |
| MidiLoaderSpec.DirtyFlagsAfter | src/midi-loader.js:49-63 | after any history the grid texture is dirty exactly when it was before or some message was applied, and the note texture exactly when it was before or some applied message was a note-on or note-off |
| MidiLoaderSpec.DisabledIgnoresMessages | src/midi-loader.js:45-47 | a disabled loader fed any number of messages ends in exactly the state it started in |
| MidiLoaderSpec.FreshCellsStayZero | src/midi-loader.js:18-20 | from a fresh loader, any grid cell and any note slot that no applied message wrote is still zero |
| MidiLoaderImpl.MidiLoader.constructor | src/midi-loader.js:16-20 | allocates both buffers fresh, at their sizes, all zero, with the loader disabled and both textures clean |
| MidiLoaderImpl.MidiLoader.OnMidiMessage | src/midi-loader.js:44-64 | the buffers, updated in place, and the dirty flags end as `Receive` of the old state says; the enable flag is untouched |
| MidiLoaderImpl.MidiLoader.Enable | src/midi-loader.js:66-67 | sets the enable flag unconditionally; buffers and dirty flags unchanged |
| MidiLoaderImpl.MidiLoader.Disable | src/midi-loader.js:82-84 | clears the enable flag; buffers and dirty flags unchanged |
| MidiLoaderImpl.NoteOnSurvivesDisable | src/midi-loader.js:44-84 | note-on [0x90, 60, 100] while enabled, then disable, then note-on [0x90, 60, 1]: note 60 reads 200 |
| MidiLoaderImpl.ControlChangeSkipsNotes | src/midi-loader.js:49-63 | control change [0xB0, 7, 64]: grid cell 0xB0 + 7 * 256 reads 64, the note buffer stays all zero and clean |
| MidiLoaderImpl.NoteOnThenOff | src/midi-loader.js:49-63 | note-on [0x90, 64, 90] then note-off [0x80, 64, 0]: note 64 reads 0, cells 0x90 + 64 * 256 and 0x80 + 64 * 256 read 90 and 0 |

## Left out

- MidiLoaderImpl.MidiLoader.Enable: models only the flag assignment (src/midi-loader.js:67). The feature test for Web MIDI, the asynchronous `requestMIDIAccess` call, its `then`/`catch` continuations and the console diagnostics (src/midi-loader.js:69-79) are browser I/O.
- `onstatechange` (src/midi-loader.js:38-42) and its registration on the access object (src/midi-loader.js:77) attach the handler to foreign MIDI input objects. This is event plumbing; in the model, messages reach `OnMidiMessage` directly.
- The `THREE.DataTexture` objects (src/midi-loader.js:22-35) are a foreign graphics library. Each is reduced to its `needsUpdate` flag. The constructor starts both flags false; the library's own initial upload state and its version counter are not modelled. Nor is the renderer clearing the flags.
- MidiLoaderImpl.MidiLoader.OnMidiMessage: a write outside a typed array is silently dropped in JavaScript. The model instead requires a message of at least three entries with `0 <= status < 256` and `0 <= data1 < 128`, which keeps every write in bounds.
- Message entries are integers. The conversion of a non-integer or non-finite number on a `Uint8Array` store (truncation, NaN to 0) is not modelled.
- Concurrency: the host delivers messages one at a time, which the sequential model assumes.
