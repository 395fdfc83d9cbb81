/**
 The code the `RequestHeaderCodec` derive macro generates for a header struct: `to_map` prints the
 fields into a string map, `from` reads them back, with flattened groups nested to any depth. The
 struct is a schema, and the two generated functions are interpreters over it.
 */
module HeaderCodec {
  import opened Prelude
  import Decimal
  import WireNames

  /** CheetahString, an integer type with its range, bool, a `serde(flatten)` struct. */
  datatype Kind = Text | Number(lo: int, hi: int) | Flag | Group(fields: seq<Field>)

  /** optional: declared as Option; required: carries the `required` attribute. */
  datatype Field = Field(name: string, kind: Kind, optional: bool, required: bool)

  datatype Value = TextV(text: string) | NumberV(n: int) | FlagV(b: bool) | GroupV(slots: seq<Slot>)

  datatype Slot = Absent | Present(value: Value)

  datatype Result = Ok(slots: seq<Slot>) | Missing(name: string) | Malformed(name: string)

  type Wire = map<string, string>

  function WireName(f: Field): string {
    WireNames.Camel(f.name)
  }

  // ---------------------------------------------------------------- to_map

  function PrintFlag(b: bool): string {
    if b then "true" else "false"
  }

  /** Later fields overwrite earlier ones of the same name, as `insert` and `extend` do. */
  function Encode(fields: seq<Field>, slots: seq<Slot>): Wire
    decreases fields
  {
    if fields == [] || slots == [] then map[]
    else EncodeSlot(fields[0], slots[0]) + Encode(fields[1..], slots[1..])
  }

  function EncodeSlot(f: Field, slot: Slot): Wire
    decreases f
  {
    match slot
    case Absent => map[]
    case Present(TextV(text)) => map[WireName(f) := text]
    case Present(NumberV(n)) => map[WireName(f) := Decimal.Text(n)]
    case Present(FlagV(b)) => map[WireName(f) := PrintFlag(b)]
    case Present(GroupV(slots)) => if f.kind.Group? then Encode(f.kind.fields, slots) else map[]
  }

  // ---------------------------------------------------------------- from

  function ParseFlag(s: string): Option<bool> {
    if s == "true" then Some(true) else if s == "false" then Some(false) else None
  }

  function ParseValue(kind: Kind, s: string): Option<Value> {
    match kind
    case Text => Some(TextV(s))
    case Number(lo, hi) => (match Decimal.Parse(s, lo, hi) case Some(n) => Some(NumberV(n)) case None => None)
    case Flag => (match ParseFlag(s) case Some(b) => Some(FlagV(b)) case None => None)
    case Group(_) => None
  }

  /** `Default::default()` */
  function DefaultOf(kind: Kind): Value {
    match kind
    case Text => TextV("")
    case Number(_, _) => NumberV(0)
    case Flag => FlagV(false)
    case Group(_) => GroupV([])
  }

  /** What an unset or unreadable field becomes when it is not required. */
  function Fallback(f: Field): Slot {
    if f.optional then Absent else Present(DefaultOf(f.kind))
  }

  function DecodeField(f: Field, m: Wire): Result
    decreases f
  {
    if f.kind.Group? then
      // an optional group is always rebuilt, never left absent
      match Decode(f.kind.fields, m)
      case Ok(slots) => Ok([Present(GroupV(slots))])
      case err => err
    else if WireName(f) !in m then
      if f.required then Missing(WireName(f)) else Ok([Fallback(f)])
    else
      match ParseValue(f.kind, m[WireName(f)])
      case Some(v) => Ok([Present(v)])
      case None => if f.required then Malformed(WireName(f)) else Ok([Fallback(f)])
  }

  function Decode(fields: seq<Field>, m: Wire): Result
    decreases fields
  {
    if fields == [] then Ok([])
    else
      match DecodeField(fields[0], m)
      case Ok(first) =>
        (match Decode(fields[1..], m)
         case Ok(rest) => Ok(first + rest)
         case err => err)
      case err => err
  }

  // ---------------------------------------------------------------- well-formed schemas and headers

  /** Every wire name of the struct, those of its flattened groups included. */
  function Names(fields: seq<Field>): set<string>
    decreases fields
  {
    if fields == [] then {} else FieldNames(fields[0]) + Names(fields[1..])
  }

  function FieldNames(f: Field): set<string>
    decreases f
  {
    if f.kind.Group? then Names(f.kind.fields) else {WireName(f)}
  }

  /** No two fields share a wire name, across all groups; number ranges hold 0. */
  ghost predicate GoodSchema(fields: seq<Field>)
    decreases fields
  {
    fields == [] || (FieldNames(fields[0]) !! Names(fields[1..]) && GoodField(fields[0]) && GoodSchema(fields[1..]))
  }

  ghost predicate GoodField(f: Field)
    decreases f
  {
    match f.kind
    case Number(lo, hi) => lo <= 0 <= hi
    case Group(fields) => GoodSchema(fields)
    case _ => true
  }

  /** The slots are a value of the struct. */
  ghost predicate Conforms(fields: seq<Field>, slots: seq<Slot>)
    decreases fields
  {
    && |fields| == |slots|
    && (fields == [] || (SlotConforms(fields[0], slots[0]) && Conforms(fields[1..], slots[1..])))
  }

  ghost predicate SlotConforms(f: Field, slot: Slot)
    decreases f
  {
    match slot
    case Absent => f.optional
    case Present(v) =>
      match f.kind
      case Text => v.TextV?
      case Number(lo, hi) => v.NumberV? && lo <= v.n <= hi
      case Flag => v.FlagV?
      case Group(fields) => v.GroupV? && Conforms(fields, v.slots)
  }

  // ---------------------------------------------------------------- what comes back

  /** The struct as `from` builds it when none of its names is on the wire. */
  function Blank(fields: seq<Field>): seq<Slot>
    decreases fields
  {
    if fields == [] then [] else [BlankSlot(fields[0])] + Blank(fields[1..])
  }

  function BlankSlot(f: Field): Slot
    decreases f
  {
    if f.kind.Group? then Present(GroupV(Blank(f.kind.fields))) else Fallback(f)
  }

  predicate NothingRequired(fields: seq<Field>)
    decreases fields
  {
    fields == [] || (FieldNotRequired(fields[0]) && NothingRequired(fields[1..]))
  }

  predicate FieldNotRequired(f: Field)
    decreases f
  {
    if f.kind.Group? then NothingRequired(f.kind.fields) else !f.required
  }

  /** Absent groups replaced by blank ones; everything else as it was. */
  function Normalised(fields: seq<Field>, slots: seq<Slot>): seq<Slot>
    decreases fields
  {
    if fields == [] || slots == [] then []
        else [NormalisedSlot(fields[0], slots[0])] + Normalised(fields[1..], slots[1..])
  }

  function NormalisedSlot(f: Field, slot: Slot): Slot
    decreases f
  {
    if !f.kind.Group? then slot
    else if slot.Absent? || !slot.value.GroupV? then BlankSlot(f)
    else Present(GroupV(Normalised(f.kind.fields, slot.value.slots)))
  }

  /** Every required field is set, and no absent group hides a required one. */
  predicate Complete(fields: seq<Field>, slots: seq<Slot>)
    decreases fields
  {
    fields == [] || slots == [] || (SlotComplete(fields[0], slots[0]) && Complete(fields[1..], slots[1..]))
  }

  predicate SlotComplete(f: Field, slot: Slot)
    decreases f
  {
    if !f.kind.Group? then f.required ==> slot.Present?
    else if slot.Absent? || !slot.value.GroupV? then FieldNotRequired(f)
    else Complete(f.kind.fields, slot.value.slots)
  }

  // ---------------------------------------------------------------- the round trip

  /** The two maps say the same about these names. */
  ghost predicate Agree(a: Wire, b: Wire, names: set<string>) {
    forall k | k in names :: (k in a <==> k in b) && (k in a ==> a[k] == b[k])
  }

  lemma {:induction false} EncodeKeys(fields: seq<Field>, slots: seq<Slot>)
    requires Conforms(fields, slots)
    ensures Encode(fields, slots).Keys <= Names(fields)
    decreases fields
  {
    if fields != [] {
      EncodeSlotKeys(fields[0], slots[0]);
      EncodeKeys(fields[1..], slots[1..]);
    }
  }

  lemma {:induction false} EncodeSlotKeys(f: Field, slot: Slot)
    requires SlotConforms(f, slot)
    ensures EncodeSlot(f, slot).Keys <= FieldNames(f)
    decreases f
  {
    if f.kind.Group? && slot.Present? { EncodeKeys(f.kind.fields, slot.value.slots); }
  }

  lemma {:induction false} DecodeBlank(fields: seq<Field>, m: Wire)
    requires m.Keys !! Names(fields)
    ensures if NothingRequired(fields) then Decode(fields, m) == Ok(Blank(fields)) else !Decode(fields, m).Ok?
    decreases fields
  {
    if fields != [] {
      DecodeFieldBlank(fields[0], m);
      DecodeBlank(fields[1..], m);
    }
  }

  lemma {:induction false} DecodeFieldBlank(f: Field, m: Wire)
    requires m.Keys !! FieldNames(f)
    ensures if FieldNotRequired(f) then DecodeField(f, m) == Ok([BlankSlot(f)]) else !DecodeField(f, m).Ok?
    decreases f
  {
    if f.kind.Group? {
      DecodeBlank(f.kind.fields, m);
    } else {
      assert WireName(f) in FieldNames(f);
    }
  }

  /** Printing and parsing one leaf. */
  lemma LeafRoundTrip(f: Field, v: Value)
    requires GoodField(f) && !f.kind.Group? && SlotConforms(f, Present(v))
    ensures WireName(f) in EncodeSlot(f, Present(v))
    ensures ParseValue(f.kind, EncodeSlot(f, Present(v))[WireName(f)]) == Some(v)
  {
    if f.kind.Number? { Decimal.RoundTrip(v.n, f.kind.lo, f.kind.hi); }
  }

  lemma {:induction false} DecodeEncodedField(f: Field, slot: Slot, m: Wire)
    requires GoodField(f) && SlotConforms(f, slot) && Agree(m, EncodeSlot(f, slot), FieldNames(f))
    ensures if SlotComplete(f, slot) then DecodeField(f, m) == Ok([NormalisedSlot(f, slot)]) else !DecodeField(f, m).Ok?
    decreases f
  {
    if f.kind.Group? {
      if slot.Absent? {
        assert m.Keys !! FieldNames(f);
        DecodeFieldBlank(f, m);
      } else {
        DecodeEncoded(f.kind.fields, slot.value.slots, m);
      }
    } else {
      assert WireName(f) in FieldNames(f);
      if slot.Present? { LeafRoundTrip(f, slot.value); }
    }
  }

  /** On any map that carries the encoding, whatever else it carries. */
  lemma {:induction false} DecodeEncoded(fields: seq<Field>, slots: seq<Slot>, m: Wire)
    requires GoodSchema(fields) && Conforms(fields, slots) && Agree(m, Encode(fields, slots), Names(fields))
    ensures if Complete(fields, slots) then Decode(fields, m) == Ok(Normalised(fields, slots))
        else !Decode(fields, m).Ok?
    decreases fields
  {
    if fields != [] {
      var head, tail := EncodeSlot(fields[0], slots[0]), Encode(fields[1..], slots[1..]);
      EncodeSlotKeys(fields[0], slots[0]);
      EncodeKeys(fields[1..], slots[1..]);
      forall k | k in FieldNames(fields[0]) ensures (k in m <==> k in head) && (k in m ==> m[k] == head[k]) {
        assert k in Names(fields) && k !in tail;
      }
      forall k | k in Names(fields[1..]) ensures (k in m <==> k in tail) && (k in m ==> m[k] == tail[k]) {
        assert k in Names(fields) && k !in head;
      }
      DecodeEncodedField(fields[0], slots[0], m);
      DecodeEncoded(fields[1..], slots[1..], m);
    }
  }

  /**
   The round trip: for every schema with distinct wire names, decoding the encoded header, among
   any other keys, gives back the header with its absent groups made blank, if and only if no
   required field is missing.
   */
  lemma RoundTrip(fields: seq<Field>, slots: seq<Slot>, extra: Wire)
    requires GoodSchema(fields) && Conforms(fields, slots) && extra.Keys !! Names(fields)
    ensures Decode(fields, extra + Encode(fields, slots)) == Ok(Normalised(fields, slots)) <==> Complete(fields, slots)
    ensures Decode(fields, extra + Encode(fields, slots)).Ok? <==> Complete(fields, slots)
  {
    var m := extra + Encode(fields, slots);
    EncodeKeys(fields, slots);
    assert Agree(m, Encode(fields, slots), Names(fields));
    DecodeEncoded(fields, slots, m);
  }

  /** No optional group was left out, at any depth. */
  predicate GroupsPresent(fields: seq<Field>, slots: seq<Slot>)
    decreases fields
  {
    fields == [] || slots == [] || (SlotGroupsPresent(fields[0], slots[0]) && GroupsPresent(fields[1..], slots[1..]))
  }

  predicate SlotGroupsPresent(f: Field, slot: Slot)
    decreases f
  {
    f.kind.Group? ==> slot.Present? && slot.value.GroupV? && GroupsPresent(f.kind.fields, slot.value.slots)
  }

  lemma {:induction false} NormalisedIsSame(fields: seq<Field>, slots: seq<Slot>)
    requires Conforms(fields, slots)
    ensures Normalised(fields, slots) == slots <==> GroupsPresent(fields, slots)
    decreases fields
  {
    if fields != [] {
      NormalisedSlotIsSame(fields[0], slots[0]);
      NormalisedIsSame(fields[1..], slots[1..]);
      var n := Normalised(fields, slots);
      assert n[0] == NormalisedSlot(fields[0], slots[0]) && n[1..] == Normalised(fields[1..], slots[1..]);
      assert slots == [slots[0]] + slots[1..];
    }
  }

  lemma {:induction false} NormalisedSlotIsSame(f: Field, slot: Slot)
    requires SlotConforms(f, slot)
    ensures NormalisedSlot(f, slot) == slot <==> SlotGroupsPresent(f, slot)
    decreases f
  {
    if f.kind.Group? && slot.Present? { NormalisedIsSame(f.kind.fields, slot.value.slots); }
  }

  /** The header itself comes back if and only if it is complete and leaves no group out. */
  lemma ExactRoundTrip(fields: seq<Field>, slots: seq<Slot>, extra: Wire)
    requires GoodSchema(fields) && Conforms(fields, slots) && extra.Keys !! Names(fields)
    ensures Decode(fields, extra + Encode(fields, slots)) == Ok(slots)
        <==> Complete(fields, slots) && GroupsPresent(fields, slots)
  {
    RoundTrip(fields, slots, extra);
    NormalisedIsSame(fields, slots);
  }

  /** A header that leaves out its optional group is decodable if and only if the group requires nothing. */
  lemma AbsentGroupDecodesIffNothingRequired(name: string, inner: seq<Field>)
    requires GoodSchema(inner)
    ensures var fields := [Field(name, Group(inner), true, false)];
            && GoodSchema(fields) && Conforms(fields, [Absent])
            && (Decode(fields, Encode(fields, [Absent])).Ok? <==> NothingRequired(inner))
  {
    var f := Field(name, Group(inner), true, false);
    var fields := [f];
    assert fields[1..] == [] && [Absent][1..] == [] && GoodField(f) && Names([]) == {};
    assert Conforms(fields, [Absent]) && GoodSchema(fields);
    RoundTrip(fields, [Absent], map[]);
    assert map[] + Encode(fields, [Absent]) == Encode(fields, [Absent]);
    assert Complete(fields, [Absent]) <==> FieldNotRequired(f);
  }

  /** The generated `to_map` of a struct: one insertion or extension after another. */
  method ToMap(fields: seq<Field>, slots: seq<Slot>) returns (m: Wire)
    requires |fields| == |slots|
    ensures m == Encode(fields, slots)
  {
    m := map[];
    for i := 0 to |fields|
      invariant m + Encode(fields[i..], slots[i..]) == Encode(fields, slots)
    {
      assert fields[i..][1..] == fields[i + 1..] && slots[i..][1..] == slots[i + 1..];
      var own := EncodeSlot(fields[i], slots[i]);
      assert m + (own + Encode(fields[i + 1..], slots[i + 1..])) == (m + own) + Encode(fields[i + 1..], slots[i + 1..]);
      m := m + own;
    }
  }

  // ---------------------------------------------------------------- leaf by leaf, for every map

  /** The fields that are on the wire themselves, those of the groups included, in order. */
  function Leaves(fields: seq<Field>): (r: seq<Field>)
    ensures forall i | 0 <= i < |r| :: !r[i].kind.Group?
    decreases fields
  {
    if fields == [] then [] else LeavesOf(fields[0]) + Leaves(fields[1..])
  }

  function LeavesOf(f: Field): (r: seq<Field>)
    ensures forall i | 0 <= i < |r| :: !r[i].kind.Group?
    decreases f
  {
    if f.kind.Group? then Leaves(f.kind.fields) else [f]
  }

  /** The slots of the leaves, a group that is absent having none of its leaves set. */
  function Flat(fields: seq<Field>, slots: seq<Slot>): seq<Slot>
    decreases fields
  {
    if fields == [] || slots == [] then [] else FlatSlot(fields[0], slots[0]) + Flat(fields[1..], slots[1..])
  }

  function FlatSlot(f: Field, slot: Slot): seq<Slot>
    decreases f
  {
    if !f.kind.Group? then [slot]
    else if slot.Present? && slot.value.GroupV? then Flat(f.kind.fields, slot.value.slots)
    else seq(|LeavesOf(f)|, _ => Absent)
  }

  /** The text stands for the value. */
  ghost predicate Says(kind: Kind, text: string, v: Value) {
    match kind
    case Text => v == TextV(text)
    case Number(lo, hi) => v.NumberV? && Decimal.Spells(text, lo, hi, v.n)
    case Flag => (text == "true" && v == FlagV(true)) || (text == "false" && v == FlagV(false))
    case Group(_) => false
  }

  ghost predicate Readable(f: Field, m: Wire) {
    WireNames.Camel(f.name) in m && exists v :: Says(f.kind, m[WireNames.Camel(f.name)], v)
  }

  /** A required field that is missing or cannot be read. */
  ghost predicate Bad(f: Field, m: Wire) {
    f.required && !Readable(f, m)
  }

  /** What a leaf holds after decoding: what the wire says, or nothing, or empty text, 0, false. */
  ghost predicate Holds(f: Field, m: Wire, slot: Slot) {
    if Readable(f, m) then slot.Present? && Says(f.kind, m[WireNames.Camel(f.name)], slot.value)
    else if f.optional then slot.Absent?
    else slot == Present(if f.kind.Text? then TextV("") else if f.kind.Number? then NumberV(0) else FlagV(false))
  }

  lemma ParseSays(kind: Kind, text: string, v: Value)
    requires !kind.Group?
    ensures ParseValue(kind, text) == Some(v) <==> Says(kind, text, v)
  {
    if kind.Number? {
      if v.NumberV? { Decimal.ParseIffSpells(text, kind.lo, kind.hi, v.n); }
    }
  }

  lemma ParsesIffReadable(f: Field, m: Wire)
    requires !f.kind.Group? && WireName(f) in m
    ensures ParseValue(f.kind, m[WireName(f)]).Some? <==> Readable(f, m)
  {
    var text := m[WireName(f)];
    if ParseValue(f.kind, text).Some? { ParseSays(f.kind, text, ParseValue(f.kind, text).value); }
    if Readable(f, m) {
      var v :| Says(f.kind, text, v);
      ParseSays(f.kind, text, v);
    }
  }

  /** The first bad leaf, if any, decides: which error, and which name it carries. */
  ghost predicate Explains(leaves: seq<Field>, m: Wire, r: Result, flat: seq<Slot>) {
    match r
    case Ok(_) =>
      |flat| == |leaves| && forall i | 0 <= i < |leaves| :: !Bad(leaves[i], m) && Holds(leaves[i], m, flat[i])
    case Missing(name) => name !in m && exists i :: FirstBad(leaves, m, i, name)
    case Malformed(name) => name in m && exists i :: FirstBad(leaves, m, i, name)
  }

  ghost predicate FirstBad(leaves: seq<Field>, m: Wire, i: int, name: string) {
    && 0 <= i < |leaves| && Bad(leaves[i], m) && name == WireNames.Camel(leaves[i].name)
    && forall j | 0 <= j < i :: !Bad(leaves[j], m)
  }

  lemma LeafExplained(f: Field, m: Wire)
    requires !f.kind.Group?
    ensures Explains([f], m, DecodeField(f, m), if DecodeField(f, m).Ok? then DecodeField(f, m).slots else [])
  {
    var r := DecodeField(f, m);
    if WireName(f) in m {
      ParsesIffReadable(f, m);
      if r.Ok? && Readable(f, m) { ParseSays(f.kind, m[WireName(f)], r.slots[0].value); }
    }
    if !r.Ok? { assert FirstBad([f], m, 0, WireName(f)); }
  }

  /** A failure in front is the failure of the whole. */
  lemma FrontFails(a: seq<Field>, b: seq<Field>, m: Wire, r: Result)
    requires !r.Ok? && Explains(a, m, r, [])
    ensures Explains(a + b, m, r, [])
  {
    var i :| FirstBad(a, m, i, r.name);
    assert (a + b)[i] == a[i] && forall j | 0 <= j < i :: (a + b)[j] == a[j];
    assert FirstBad(a + b, m, i, r.name);
  }

  /** With the front fine, the rest decides. */
  lemma BackDecides(a: seq<Field>, b: seq<Field>, m: Wire,
                    ra: Result, fa: seq<Slot>, rb: Result, fb: seq<Slot>, r: Result)
    requires ra.Ok? && Explains(a, m, ra, fa) && Explains(b, m, rb, fb)
    requires if rb.Ok? then r.Ok? else r == rb
    ensures Explains(a + b, m, r, if r.Ok? then fa + fb else [])
  {
    if !rb.Ok? {
      var i :| FirstBad(b, m, i, rb.name);
      forall j | 0 <= j < |a| + i ensures !Bad((a + b)[j], m) {
        if j < |a| { assert (a + b)[j] == a[j]; } else { assert (a + b)[j] == b[j - |a|]; }
      }
      assert FirstBad(a + b, m, |a| + i, rb.name);
    }
  }

  function FlatOf(fields: seq<Field>, r: Result): seq<Slot> {
    if r.Ok? then Flat(fields, r.slots) else []
  }

  function FlatOne(f: Field, r: Result): seq<Slot> {
    if r.Ok? && r.slots != [] then FlatSlot(f, r.slots[0]) else []
  }

  lemma {:induction false} FieldExplained(f: Field, m: Wire)
    ensures Explains(LeavesOf(f), m, DecodeField(f, m), FlatOne(f, DecodeField(f, m)))
    ensures var r := DecodeField(f, m); r.Ok? ==> |r.slots| == 1 && SlotGroupsPresent(f, r.slots[0])
    decreases f, 1
  {
    if f.kind.Group? { DecodeIsLeafwise(f.kind.fields, m); } else { LeafExplained(f, m); }
  }

  /**
   Decoding, for every map: it succeeds if and only if every required leaf, at any depth, is on
   the wire with readable text; then every leaf holds what the wire says or its default. Otherwise
   the first bad leaf is named, as missing or as malformed.
   */
  lemma {:induction false} DecodeIsLeafwise(fields: seq<Field>, m: Wire)
    ensures var r := Decode(fields, m);
            && Explains(Leaves(fields), m, r, FlatOf(fields, r))
            && (r.Ok? ==> |r.slots| == |fields| && GroupsPresent(fields, r.slots))
    decreases fields, 0
  {
    if fields != [] {
      var first, rest, r := DecodeField(fields[0], m), Decode(fields[1..], m), Decode(fields, m);
      FieldExplained(fields[0], m);
      if !first.Ok? {
        FrontFails(LeavesOf(fields[0]), Leaves(fields[1..]), m, first);
      } else {
        DecodeIsLeafwise(fields[1..], m);
        if r.Ok? { assert r.slots[0] == first.slots[0] && r.slots[1..] == rest.slots; }
        BackDecides(LeavesOf(fields[0]), Leaves(fields[1..]), m, first, FlatOne(fields[0], first),
                    rest, FlatOf(fields[1..], rest), r);
      }
    }
  }

  /** In particular: a header is accepted if and only if no required leaf is bad. */
  lemma DecodesIffNothingBad(fields: seq<Field>, m: Wire)
    ensures Decode(fields, m).Ok? <==> forall i | 0 <= i < |Leaves(fields)| :: !Bad(Leaves(fields)[i], m)
  {
    DecodeIsLeafwise(fields, m);
    var r := Decode(fields, m);
    if !r.Ok? {
      var i :| FirstBad(Leaves(fields), m, i, r.name);
      assert Bad(Leaves(fields)[i], m);
    }
  }

  // ---------------------------------------------------------------- what is on the wire

  /** A leaf is on the wire under its camel-case name exactly when it is set, with canonical text. */
  ghost predicate OnWire(f: Field, slot: Slot, m: Wire) {
    var name := WireNames.Camel(f.name);
    && (name in m <==> slot.Present?)
    && (slot.Present? ==> Says(f.kind, m[name], slot.value))
    && (slot.Present? && f.kind.Number? && name in m ==>
          Decimal.Canonical(if slot.value.NumberV? && slot.value.n < 0 && m[name] != [] then m[name][1..] else m[name]))
  }

  lemma LeafOnWire(f: Field, slot: Slot)
    requires !f.kind.Group? && GoodField(f) && SlotConforms(f, slot)
    ensures OnWire(f, slot, EncodeSlot(f, slot))
  {
    if slot.Present? && f.kind.Number? {
      var n := slot.value.n;
      Decimal.RoundTrip(n, f.kind.lo, f.kind.hi);
      Decimal.ParseIffSpells(Decimal.Text(n), f.kind.lo, f.kind.hi, n);
      Decimal.TextIsCanonical(n);
    }
  }

  lemma {:induction false} LeafNames(fields: seq<Field>)
    ensures Names(fields) == set f | f in Leaves(fields) :: WireNames.Camel(f.name)
    decreases fields, 0
  {
    if fields != [] {
      LeafNamesOf(fields[0]);
      LeafNames(fields[1..]);
    }
  }

  lemma {:induction false} LeafNamesOf(f: Field)
    ensures FieldNames(f) == set g | g in LeavesOf(f) :: WireNames.Camel(g.name)
    decreases f, 1
  {
    if f.kind.Group? { LeafNames(f.kind.fields); }
  }

  ghost predicate AllOnWire(leaves: seq<Field>, flat: seq<Slot>, m: Wire) {
    |flat| == |leaves| && forall i | 0 <= i < |leaves| :: OnWire(leaves[i], flat[i], m)
  }

  /** Entries under other names do not matter. */
  lemma AgreeOnWire(leaves: seq<Field>, flat: seq<Slot>, a: Wire, b: Wire)
    requires AllOnWire(leaves, flat, a) && Agree(a, b, set f | f in leaves :: WireNames.Camel(f.name))
    ensures AllOnWire(leaves, flat, b)
  {
    forall i | 0 <= i < |leaves| ensures OnWire(leaves[i], flat[i], b) {
      assert OnWire(leaves[i], flat[i], a) && leaves[i] in leaves;
      assert WireNames.Camel(leaves[i].name) in set f | f in leaves :: WireNames.Camel(f.name);
    }
  }

  lemma {:induction false} SlotIsLeafwise(f: Field, slot: Slot)
    requires GoodField(f) && SlotConforms(f, slot)
    ensures AllOnWire(LeavesOf(f), FlatSlot(f, slot), EncodeSlot(f, slot))
    decreases f, 1
  {
    if !f.kind.Group? {
      LeafOnWire(f, slot);
    } else if slot.Present? {
      EncodeIsLeafwise(f.kind.fields, slot.value.slots);
    }
  }

  /** The encoding, leaf by leaf; nothing else is on the wire. */
  lemma {:induction false} EncodeIsLeafwise(fields: seq<Field>, slots: seq<Slot>)
    requires GoodSchema(fields) && Conforms(fields, slots)
    ensures AllOnWire(Leaves(fields), Flat(fields, slots), Encode(fields, slots))
    ensures forall k | k in Encode(fields, slots) :: exists f :: f in Leaves(fields) && k == WireNames.Camel(f.name)
    decreases fields, 0
  {
    EncodeKeys(fields, slots);
    LeafNames(fields);
    if fields != [] {
      var head, tail, all := EncodeSlot(fields[0], slots[0]), Encode(fields[1..], slots[1..]), Encode(fields, slots);
      SlotIsLeafwise(fields[0], slots[0]);
      EncodeIsLeafwise(fields[1..], slots[1..]);
      EncodeSlotKeys(fields[0], slots[0]);
      EncodeKeys(fields[1..], slots[1..]);
      LeafNamesOf(fields[0]);
      LeafNames(fields[1..]);
      AgreeOnWire(LeavesOf(fields[0]), FlatSlot(fields[0], slots[0]), head, all);
      AgreeOnWire(Leaves(fields[1..]), Flat(fields[1..], slots[1..]), tail, all);
    }
  }
}
