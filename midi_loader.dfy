/** The MIDI loader as the object the renderer holds: two byte buffers updated in place,
    the `needsUpdate` flags of the two textures that view them, and the enable flag.
    Each method is proved against the value-level model in MidiLoaderSpec. */
module MidiLoaderImpl {
  import opened MidiLoaderSpec

  class MidiLoader {
    /** The 256x128 grid: cell status + data1 * 256 holds the last second data byte. */
    const midiArray: array<Byte>
    /** One slot per note number: twice the last note-on velocity, or 0 after note-off. */
    const noteArray: array<Byte>
    /** `needsUpdate` of the texture over midiArray. */
    var midiTextureNeedsUpdate: bool
    /** `needsUpdate` of the texture over noteArray. */
    var noteTextureNeedsUpdate: bool
    var isEnabled: bool

    ghost predicate Valid()
    {
      midiArray.Length == GridSize && noteArray.Length == NoteCount
    }

    /** The loader's state as a value. */
    function Snapshot(): (s: LoaderState)
      reads this, midiArray, noteArray
      requires Valid()
      ensures WellFormed(s)
    {
      LoaderState(midiArray[..], noteArray[..], isEnabled, midiTextureNeedsUpdate, noteTextureNeedsUpdate)
    }

    /** Both buffers allocated and zero, the loader disabled. */
    constructor ()
      ensures Valid() && fresh(midiArray) && fresh(noteArray)
      ensures Snapshot() == Initial()
    {
      midiArray := new Byte[GridSize](_ => 0);
      noteArray := new Byte[NoteCount](_ => 0);
      midiTextureNeedsUpdate, noteTextureNeedsUpdate := false, false;
      isEnabled := false;
    }

    /** The message handler: ignored when disabled; otherwise one grid write, and a note
        write for note-on and note-off status bytes, each marking its texture dirty. */
    method OnMidiMessage(midi: seq<int>)
      requires Valid() && ValidMessage(midi)
      modifies this`midiTextureNeedsUpdate, this`noteTextureNeedsUpdate, midiArray, noteArray
      ensures Snapshot() == Receive(old(Snapshot()), midi)
      ensures isEnabled == old(isEnabled)
    {
      if !isEnabled {
        return;
      }

      var offset := midi[0] + midi[1] * 256;
      midiArray[offset] := StoreByte(midi[2]);
      midiTextureNeedsUpdate := true;

      if 0x90 <= midi[0] && midi[0] < 0xA0 {
        noteArray[midi[1]] := StoreByte(midi[2] * 2);
        noteTextureNeedsUpdate := true;
      }

      if 0x80 <= midi[0] && midi[0] < 0x90 {
        noteArray[midi[1]] := 0;
        noteTextureNeedsUpdate := true;
      }
    }

    /** Sets the enable flag and nothing else of the loader's state; requesting access
        to MIDI inputs is not part of this model. */
    method Enable()
      requires Valid()
      modifies this`isEnabled
      ensures Snapshot() == Apply(old(Snapshot()), Event.Enable)
      ensures isEnabled
    {
      isEnabled := true;
    }

    /** Clears the enable flag and nothing else; handlers already attached stay
        attached and their messages are dropped by OnMidiMessage. */
    method Disable()
      requires Valid()
      modifies this`isEnabled
      ensures Snapshot() == Apply(old(Snapshot()), Event.Disable)
      ensures !isEnabled
    {
      isEnabled := false;
    }
  }

  /** Note-on [0x90, 60, 100] while enabled, then disable, then note-on [0x90, 60, 1]:
      the second message is dropped and note 60 still reads 200. */
  method NoteOnSurvivesDisable() returns (velocity: Byte)
    ensures velocity == 200
  {
    var loader := new MidiLoader();
    loader.Enable();
    loader.OnMidiMessage([0x90, 60, 100]);
    loader.Disable();
    loader.OnMidiMessage([0x90, 60, 1]);
    velocity := loader.noteArray[60];
  }

  /** Control change [0xB0, 7, 64] on a fresh enabled loader: the grid cell of
      (0xB0, 7) reads 64 and the note buffer stays zero and clean. */
  method ControlChangeSkipsNotes() returns (cell: Byte, notes: seq<Byte>, notesDirty: bool)
    ensures cell == 64
    ensures notes == seq(NoteCount, _ => 0)
    ensures !notesDirty
  {
    var loader := new MidiLoader();
    loader.Enable();
    loader.OnMidiMessage([0xB0, 7, 64]);
    cell := loader.midiArray[0xB0 + 7 * 256];
    notes := loader.noteArray[..];
    notesDirty := loader.noteTextureNeedsUpdate;
  }

  /** Note-on [0x90, 64, 90] then note-off [0x80, 64, 0]: note 64 ends at 0, and the
      grid keeps both writes at their own cells. */
  method NoteOnThenOff() returns (note: Byte, onCell: Byte, offCell: Byte)
    ensures note == 0 && onCell == 90 && offCell == 0
  {
    var loader := new MidiLoader();
    loader.Enable();
    loader.OnMidiMessage([0x90, 64, 90]);
    loader.OnMidiMessage([0x80, 64, 0]);
    note := loader.noteArray[64];
    onCell := loader.midiArray[0x90 + 64 * 256];
    offCell := loader.midiArray[0x80 + 64 * 256];
  }
}
