/** The MIDI mapping of the Pioneer DDJ-SR controller: the per-deck table
    of MIDI addresses for the transport buttons and hot-cue pads, the
    assignment of each component to its deck's group, and the library
    rotary selector (a relative encoder with a push switch).

    The controller-components library and the engine are foreign: a
    component is the object `Component`, which keeps its kind, its MIDI
    address and its group, and a call into the engine is an `EngineCall`
    value that the handlers return. */
module DDJSR {
  import opened Wrappers

  /** A MIDI status byte. */
  type StatusByte = x: int | 0 <= x < 0x100
  /** A MIDI data byte (seven bits). */
  type DataByte = x: int | 0 <= x < 0x80
  /** A MIDI channel number. */
  type MidiChannel = x: int | 0 <= x < 0x10

  // ---------------------------------------------------------------------
  // Rotary selector

  /** The relative encoder's delta: a seven-bit two's-complement number,
      negative exactly when bit 0x40 is set. */
  function DecodeDelta(value: DataByte): (delta: int)
    ensures -0x40 <= delta < 0x40
    ensures delta < 0 <==> value >= 0x40
    ensures (delta + 0x80) % 0x80 == value
  {
    if (value as bv8) & 0x40 != 0 then value - 0x80 else value
  }

  /** The data byte the encoder sends for a turn of `delta` steps. */
  function EncodeDelta(delta: int): (value: DataByte)
    requires -0x40 <= delta < 0x40
  {
    (delta + 0x80) % 0x80
  }

  /** Decoding undoes encoding: every delta in range is reachable. */
  lemma DecodeEncode(delta: int)
    requires -0x40 <= delta < 0x40
    ensures DecodeDelta(EncodeDelta(delta)) == delta
  {
  }

  /** Encoding undoes decoding: no two data bytes give the same delta. */
  lemma EncodeDecode(value: DataByte)
    ensures EncodeDelta(DecodeDelta(value)) == value
  {
  }

  const RotateStatus: StatusByte := 0xB6
  const PushStatus: StatusByte := 0x96

  const LibraryGroup: string := "[Library]"

  /** What a rotary-selector message means. */
  datatype SelectorEvent = Rotate(delta: int) | Push

  /** An unrecognised status byte is a mapping defect. */
  datatype InputError = UndefinedStatus(status: StatusByte)

  /** A call into the engine. */
  datatype EngineCall =
    | SetValue(group: string, key: string, value: int)
    | ToggleControl(group: string, key: string)

  /** Decodes a rotary-selector message by its status byte. */
  function DecodeSelector(status: StatusByte, value: DataByte): (r: Result<SelectorEvent, InputError>)
    ensures r.Success? <==> status == RotateStatus || status == PushStatus
    ensures r.Failure? ==> r.error == UndefinedStatus(status)
    ensures status == RotateStatus ==> r == Success(Rotate(DecodeDelta(value)))
    ensures status == PushStatus ==> r == Success(Push)
    ensures r.Success? && r.value.Rotate? ==> -0x40 <= r.value.delta < 0x40
  {
    if status == RotateStatus then Success(Rotate(DecodeDelta(value)))
    else if status == PushStatus then Success(Push)
    else Failure(UndefinedStatus(status))
  }

  /** The status and data bytes that carry a selector event. */
  function EncodeSelector(event: SelectorEvent): (StatusByte, DataByte)
    requires event.Rotate? ==> -0x40 <= event.delta < 0x40
  {
    match event
    case Rotate(delta) => (RotateStatus, EncodeDelta(delta))
    case Push => (PushStatus, 0x7F)
  }

  /** Every selector event survives encoding and decoding. */
  lemma SelectorRoundTrip(event: SelectorEvent)
    requires event.Rotate? ==> -0x40 <= event.delta < 0x40
    ensures DecodeSelector(EncodeSelector(event).0, EncodeSelector(event).1) == Success(event)
  {
    if event.Rotate? {
      DecodeEncode(event.delta);
    }
  }

  /** The knob handler: move the library selection by the decoded delta. */
  function OnKnobEvent(value: DataByte): (call: EngineCall)
    ensures call.SetValue? && call.group == LibraryGroup && call.key == "MoveVertical"
    ensures -0x40 <= call.value < 0x40 && EncodeDelta(call.value) == value
  {
    EncodeDecode(value);
    SetValue(LibraryGroup, "MoveVertical", DecodeDelta(value))
  }

  /** The push handler: toggle the library focus. */
  function OnButtonEvent(): (call: EngineCall)
    ensures call.ToggleControl? && call.group == LibraryGroup && call.key == "MoveFocusForward"
  {
    ToggleControl(LibraryGroup, "MoveFocusForward")
  }

  /** The selector's MIDI input handler. `channel` and `control` do not
      affect the outcome; an unknown status byte is refused and reaches no
      engine control. */
  function Input(channel: MidiChannel, control: DataByte, value: DataByte, status: StatusByte)
    : (r: Result<EngineCall, InputError>)
    ensures r.Failure? <==> DecodeSelector(status, value).Failure?
    ensures r.Failure? ==> r.error == UndefinedStatus(status)
    ensures status == RotateStatus ==>
              exists delta :: -0x40 <= delta < 0x40 && EncodeDelta(delta) == value
                              && r == Success(SetValue(LibraryGroup, "MoveVertical", delta))
    ensures status == PushStatus ==> r == Success(ToggleControl(LibraryGroup, "MoveFocusForward"))
  {
    match DecodeSelector(status, value)
    case Success(Rotate(_)) =>
      EncodeDecode(value);
      Success(OnKnobEvent(value))
    case Success(Push) => Success(OnButtonEvent())
    case Failure(e) => Failure(e)
  }

  /** A turn of `delta` steps moves the library selection by exactly that
      much, whatever channel and control number the message carries. */
  lemma TurnMovesSelection(channel: MidiChannel, control: DataByte, delta: int)
    requires -0x40 <= delta < 0x40
    ensures Input(channel, control, EncodeDelta(delta), RotateStatus)
            == Success(SetValue(LibraryGroup, "MoveVertical", delta))
  {
    DecodeEncode(delta);
  }

  // ---------------------------------------------------------------------
  // Per-deck MIDI address table

  /** A MIDI address: status byte and control (note) number. */
  datatype MidiAddress = MidiAddress(status: int, control: int)

  /** The kinds of component a deck holds. */
  datatype ComponentKind =
    | PlayButton
    | CueButton
    | SyncButton
    | PflButton
    | HotcueButton(number: int)

  /** The control numbers of the transport buttons. */
  const PlayControl := 0x0B
  const CueControl := 0x0C
  const SyncControl := 0x58
  const PflControl := 0x54

  /** Note-on status of the transport buttons on a MIDI channel. */
  function TransportStatus(midiChannel: int): int
  {
    0x90 + midiChannel
  }

  /** Note-on status of the performance pads on a MIDI channel: eight
      channels above the transport buttons. */
  function PadStatus(midiChannel: int): int
  {
    0x90 + 8 + midiChannel
  }

  /** The kinds a deck holds: the four transport buttons and hot cues 1..8. */
  predicate IsDeckKind(kind: ComponentKind)
  {
    kind.HotcueButton? ==> 1 <= kind.number <= 8
  }

  /** The MIDI address of a component of `kind` on a deck on `midiChannel`. */
  function Address(midiChannel: int, kind: ComponentKind): (a: MidiAddress)
    ensures kind.HotcueButton? ==> a == MidiAddress(0x98 + midiChannel, kind.number)
    ensures !kind.HotcueButton? ==> a.status == 0x90 + midiChannel
    ensures kind == PlayButton <==> a == MidiAddress(0x90 + midiChannel, 0x0B)
    ensures kind == CueButton <==> a == MidiAddress(0x90 + midiChannel, 0x0C)
    ensures kind == SyncButton <==> a == MidiAddress(0x90 + midiChannel, 0x58)
    ensures kind == PflButton <==> a == MidiAddress(0x90 + midiChannel, 0x54)
  {
    match kind
    case PlayButton => MidiAddress(TransportStatus(midiChannel), PlayControl)
    case CueButton => MidiAddress(TransportStatus(midiChannel), CueControl)
    case SyncButton => MidiAddress(TransportStatus(midiChannel), SyncControl)
    case PflButton => MidiAddress(TransportStatus(midiChannel), PflControl)
    case HotcueButton(i) => MidiAddress(PadStatus(midiChannel), 0x00 + i)
  }

  /** On the four deck channels every address is a note-on message with a
      data-byte control number. */
  lemma AddressesAreNoteOn(midiChannel: int, kind: ComponentKind)
    requires 0 <= midiChannel < 4 && IsDeckKind(kind)
    ensures 0x90 <= Address(midiChannel, kind).status < 0xA0
    ensures 0 <= Address(midiChannel, kind).control < 0x80
  {
  }

  /** A pad's status byte is never a transport status byte of any of the
      four decks. */
  lemma PadStatusNeverTransport(ch1: int, ch2: int)
    requires 0 <= ch1 < 4 && 0 <= ch2 < 4
    ensures PadStatus(ch1) != TransportStatus(ch2)
  {
  }

  /** The table is collision-free: across the four decks, no two components
      share a MIDI address. */
  lemma AddressInjective(ch1: int, kind1: ComponentKind, ch2: int, kind2: ComponentKind)
    requires 0 <= ch1 < 4 && 0 <= ch2 < 4
    requires IsDeckKind(kind1) && IsDeckKind(kind2)
    requires Address(ch1, kind1) == Address(ch2, kind2)
    ensures ch1 == ch2 && kind1 == kind2
  {
    if kind1.HotcueButton? != kind2.HotcueButton? {
      PadStatusNeverTransport(if kind1.HotcueButton? then ch1 else ch2,
                              if kind1.HotcueButton? then ch2 else ch1);
    }
  }

  // ---------------------------------------------------------------------
  // Deck groups

  /** Decimal digits of a natural number. */
  function NatToString(n: nat): (s: string)
    decreases n
  {
    if n < 10 then ["0123456789"[n]] else NatToString(n / 10) + ["0123456789"[n % 10]]
  }

  /** The engine group of a deck, `[ChannelN]`, as the components library
      names it. */
  function DeckGroup(deckNumber: nat): string
  {
    "[Channel" + NatToString(deckNumber) + "]"
  }

  /** The four decks have four distinct groups. */
  lemma DeckGroupsDistinct(n1: nat, n2: nat)
    requires 1 <= n1 <= 4 && 1 <= n2 <= 4 && n1 != n2
    ensures DeckGroup(n1) != DeckGroup(n2)
  {
    assert DeckGroup(n1)[8] == "0123456789"[n1];
    assert DeckGroup(n2)[8] == "0123456789"[n2];
  }

  /** The group a component is given when it is reconnected to a deck: the
      deck's group if it had none, otherwise its own. */
  function Rebound(group: Option<string>, deckGroup: string): (g: Option<string>)
    ensures g.Some?
    ensures group.Some? ==> g == group
    ensures group.None? ==> g == Some(deckGroup)
  {
    if group.None? then Some(deckGroup) else group
  }

  /** Rebinding twice to the same deck changes nothing more. */
  lemma ReboundIdempotent(group: Option<string>, deckGroup: string)
    ensures Rebound(Rebound(group, deckGroup), deckGroup) == Rebound(group, deckGroup)
  {
  }

  /** A control-surface component. */
  class Component {
    const kind: ComponentKind
    const midi: MidiAddress
    var group: Option<string>

    constructor (kind: ComponentKind, midi: MidiAddress)
      ensures this.kind == kind && this.midi == midi && group == None
    {
      this.kind := kind;
      this.midi := midi;
      group := None;
    }
  }

  /** Gives every component of `components` the group `deckGroup` unless it
      already has one. */
  method ReconnectComponents(components: seq<Component>, deckGroup: string)
    modifies set c | c in components
    ensures forall c :: c in components ==> c.group == Rebound(old(c.group), deckGroup)
  {
    for i := 0 to |components|
      invariant forall c :: c in components[..i] ==> c.group == Rebound(old(c.group), deckGroup)
      invariant forall c :: c in components && c !in components[..i] ==> c.group == old(c.group)
    {
      var c := components[i];
      if c.group.None? {
        c.group := Some(deckGroup);
      }
      assert components[..i + 1] == components[..i] + [c];
    }
  }

  /** One deck of the controller. `hotcue[0]` is unused. */
  class Deck {
    const deckNumber: int
    const midiChannel: int
    const currentDeck: string
    const play: Component
    const cue: Component
    const sync: Component
    const pfl: Component
    const hotcue: array<Component?>

    /** The shape of the hot-cue array. */
    ghost predicate Valid()
      reads this, hotcue
    {
      && hotcue.Length == 9
      && hotcue[0] == null
      && forall i :: 1 <= i <= 8 ==> hotcue[i] != null
    }

    /** The hot-cue buttons 1..8, in order. */
    function Hotcues(): (pads: seq<Component>)
      reads this, hotcue
      requires Valid()
      ensures |pads| == 8 && forall i :: 1 <= i <= 8 ==> pads[i - 1] == hotcue[i]
    {
      seq(8, i requires 0 <= i < 8 reads hotcue => hotcue[i + 1])
    }

    /** The deck's components, in the order they are reconnected. */
    function Components(): seq<Component>
      reads this, hotcue
      requires Valid()
    {
      [play, cue, sync, pfl] + Hotcues()
    }

    /** `c` sits at its table address on this deck's channel and belongs to
        this deck's group. */
    ghost predicate Bound(c: Component)
      reads this, c
    {
      c.midi == Address(midiChannel, c.kind) && c.group == Some(currentDeck)
    }

    /** Every component of the deck is bound to it. */
    ghost predicate Wired()
      reads this, hotcue, set i | 0 <= i < hotcue.Length :: hotcue[i]
      reads play, cue, sync, pfl
    {
      && Valid()
      && play.kind == PlayButton && cue.kind == CueButton
      && sync.kind == SyncButton && pfl.kind == PflButton
      && (forall i :: 1 <= i <= 8 ==> hotcue[i].kind == HotcueButton(i))
      && Bound(play) && Bound(cue) && Bound(sync) && Bound(pfl)
      && forall i :: 1 <= i <= 8 ==> Bound(hotcue[i])
    }

    constructor (deckNumber: nat, midiChannel: int)
      ensures this.deckNumber == deckNumber && this.midiChannel == midiChannel
      ensures currentDeck == DeckGroup(deckNumber)
      ensures Valid() && fresh(hotcue)
      ensures play.kind == PlayButton && cue.kind == CueButton
      ensures sync.kind == SyncButton && pfl.kind == PflButton
      ensures forall i :: 1 <= i <= 8 ==> hotcue[i].kind == HotcueButton(i)
      ensures fresh(play) && fresh(cue) && fresh(sync) && fresh(pfl)
      ensures forall i :: 1 <= i <= 8 ==> fresh(hotcue[i])
      ensures Wired()
    {
      this.deckNumber := deckNumber;
      this.midiChannel := midiChannel;
      currentDeck := DeckGroup(deckNumber);
      var playButton := new Component(PlayButton, Address(midiChannel, PlayButton));
      var cueButton := new Component(CueButton, Address(midiChannel, CueButton));
      var syncButton := new Component(SyncButton, Address(midiChannel, SyncButton));
      var pflButton := new Component(PflButton, Address(midiChannel, PflButton));
      var pads := new Component?[9](_ => null);
      for i := 1 to 9
        invariant playButton.group == None && cueButton.group == None
        invariant syncButton.group == None && pflButton.group == None
        invariant pads[0] == null
        invariant forall j :: 1 <= j < i ==> pads[j] != null && fresh(pads[j])
        invariant forall j :: 1 <= j < i ==> pads[j].kind == HotcueButton(j)
        invariant forall j :: 1 <= j < i ==> pads[j].midi == Address(midiChannel, HotcueButton(j))
        invariant forall j :: 1 <= j < i ==> pads[j].group == None
      {
        pads[i] := new Component(HotcueButton(i), Address(midiChannel, HotcueButton(i)));
      }
      play, cue, sync, pfl := playButton, cueButton, syncButton, pflButton;
      hotcue := pads;
      new;
      var components := [play, cue, sync, pfl] + Hotcues();
      assert components[0] == play && components[1] == cue && components[2] == sync && components[3] == pfl;
      ReconnectComponents(components, currentDeck);
      forall i | 1 <= i <= 8
        ensures Bound(hotcue[i])
      {
        assert components[i + 3] == hotcue[i];
      }
      assert Bound(play) && Bound(cue) && Bound(sync) && Bound(pfl);
    }
  }

  /** The controller mapping: its decks. */
  class Controller {
    var deck: seq<Deck>

    constructor ()
      ensures deck == []
    {
      deck := [];
    }

    /** Creates the four decks: deck `i` has number `i + 1` and MIDI
        channel `i`. */
    method Init()
      modifies this
      ensures |deck| == 4
      ensures forall i :: 0 <= i < 4 ==>
                && deck[i].deckNumber == i + 1 && deck[i].midiChannel == i
                && deck[i].currentDeck == DeckGroup(i + 1)
                && fresh(deck[i]) && deck[i].Wired()
      // the table of each deck, on channel i
      ensures forall i :: 0 <= i < 4 ==>
                && deck[i].Valid()
                && deck[i].play.midi == MidiAddress(0x90 + i, 0x0B)
                && deck[i].cue.midi == MidiAddress(0x90 + i, 0x0C)
                && deck[i].sync.midi == MidiAddress(0x90 + i, 0x58)
                && deck[i].pfl.midi == MidiAddress(0x90 + i, 0x54)
                && forall k :: 1 <= k <= 8 ==> deck[i].hotcue[k].midi == MidiAddress(0x98 + i, k)
    {
      deck := [];
      for i := 0 to 4
        invariant |deck| == i
        invariant forall j :: 0 <= j < i ==>
                    && deck[j].deckNumber == j + 1 && deck[j].midiChannel == j
                    && deck[j].currentDeck == DeckGroup(j + 1)
                    && fresh(deck[j]) && deck[j].Wired()
      {
        var d := new Deck(i + 1, i);
        deck := deck + [d];
      }
    }
  }
}
