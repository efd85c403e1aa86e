// Capabilities that carry a list of address families (bgpgg/src/bgp/msg_open_types.rs;
// section 3 of RFC 4724, section 4 of RFC 7911, section 3.1 of RFC 9494).
module Capabilities {
  import opened Ast
  import opened Bytes
  import opened Decimal
  import opened Wrappers

  // ----- families -----

  function AfiCode(a: Afi): u16 {
    match a
    case Ipv4Afi => 1
    case Ipv6Afi => 2
    case LinkStateAfi => 16388
  }

  function AfiOf(v: u16): Option<Afi> {
    match v
    case 1 => Some(Ipv4Afi)
    case 2 => Some(Ipv6Afi)
    case 16388 => Some(LinkStateAfi)
    case _ => None
  }

  function SafiCode(s: Safi): u8 {
    match s
    case Unicast => 1
    case Multicast => 2
    case MplsLabel => 4
    case LinkState => 71
    case LinkStateVpn => 72
  }

  function SafiOf(v: u8): Option<Safi> {
    match v
    case 1 => Some(Unicast)
    case 2 => Some(Multicast)
    case 4 => Some(MplsLabel)
    case 71 => Some(LinkState)
    case 72 => Some(LinkStateVpn)
    case _ => None
  }

  datatype Family = Family(afi: Afi, safi: Safi)

  function FamilyBytes(f: Family): Bytes { Be(AfiCode(f.afi), 2) + [SafiCode(f.safi)] }

  function FamilyOf(b: Bytes): Option<Family>
    requires |b| >= 3
  {
    var a :- AfiOf(U16(b[..2]));
    var s :- SafiOf(b[2]);
    Some(Family(a, s))
  }

  lemma FamilyBack(f: Family, more: Bytes)
    ensures FamilyOf(FamilyBytes(f) + more) == Some(f)
  {
    var b := FamilyBytes(f) + more;
    assert b[..2] == Be(AfiCode(f.afi), 2) && b[2] == SafiCode(f.safi);
    U16Back(AfiCode(f.afi));
  }

  // ----- tuples -----

  datatype Mode = Receive | Send | Both

  datatype Entry =
    | Restart(family: Family, preserved: bool)
    | Paths(family: Family, mode: Mode)
    | Stale(family: Family, preserved: bool, time: u32)

  // The three capabilities differ in what follows the family in a tuple.
  datatype Kind = RestartKind | PathsKind | StaleKind

  function Width(k: Kind): (n: nat)
    ensures n >= 4
  {
    if k.StaleKind? then 7 else 4
  }

  function KindOf(e: Entry): Kind {
    match e
    case Restart(_, _) => RestartKind
    case Paths(_, _) => PathsKind
    case Stale(_, _, _) => StaleKind
  }

  function Flag(b: bool): u8 { if b then 0x80 else 0 }

  function ModeByte(m: Mode): u8 {
    match m
    case Receive => 1
    case Send => 2
    case Both => 3
  }

  function ModeOf(v: u8): Option<Mode> {
    match v
    case 1 => Some(Receive)
    case 2 => Some(Send)
    case 3 => Some(Both)
    case _ => None
  }

  // The stale time keeps its low 24 bits.
  function EntryBytes(e: Entry): (b: Bytes)
    ensures |b| == Width(KindOf(e))
  {
    match e
    case Restart(f, p) => FamilyBytes(f) + [Flag(p)]
    case Paths(f, m) => FamilyBytes(f) + [ModeByte(m)]
    case Stale(f, p, t) => FamilyBytes(f) + [Flag(p)] + Be(t % 0x100_0000, 3)
  }

  // Tuples with an unknown family or mode are skipped.
  function EntryOf(k: Kind, b: Bytes): Option<Entry>
    requires |b| == Width(k)
  {
    var f :- FamilyOf(b);
    match k
    case RestartKind => Some(Restart(f, b[3] >= 0x80))
    case PathsKind => var m :- ModeOf(b[3]); Some(Paths(f, m))
    case StaleKind =>
      Pow256Values();
      Some(Stale(f, b[3] >= 0x80, Num(b[4..])))
  }

  function EntriesBytes(es: seq<Entry>): Bytes {
    if es == [] then [] else EntryBytes(es[0]) + EntriesBytes(es[1..])
  }

  // `while offset + LEN <= val.len()`: a short tail is ignored.
  function DecodeEntries(k: Kind, b: Bytes): seq<Entry> {
    if |b| < Width(k) then []
    else
      var e := EntryOf(k, b[..Width(k)]);
      (if e.Some? then [e.value] else []) + DecodeEntries(k, b[Width(k)..])
  }

  // What is lost: stale times beyond 24 bits.
  function Cut(e: Entry): Entry {
    if e.Stale? then e.(time := e.time % 0x100_0000) else e
  }

  lemma EntryBack(e: Entry)
    ensures EntryOf(KindOf(e), EntryBytes(e)) == Some(Cut(e))
  {
    hide FamilyBytes, FamilyOf, Be;
    var b := EntryBytes(e);
    match e {
      case Restart(f, p) => FamilyBack(f, [Flag(p)]); FamilyLength(f);
      case Paths(f, m) => FamilyBack(f, [ModeByte(m)]); FamilyLength(f);
      case Stale(f, p, t) =>
        FamilyLength(f);
        assert b == FamilyBytes(f) + ([Flag(p)] + Be(t % 0x100_0000, 3));
        FamilyBack(f, [Flag(p)] + Be(t % 0x100_0000, 3));
        assert b[4..] == Be(t % 0x100_0000, 3);
        Pow256Values();
        NumBe(t % 0x100_0000, 3);
    }
  }

  lemma FamilyLength(f: Family)
    ensures |FamilyBytes(f)| == 3
  {
  }

  function CutAll(es: seq<Entry>): seq<Entry> {
    if es == [] then [] else [Cut(es[0])] + CutAll(es[1..])
  }

  predicate OfKind(k: Kind, es: seq<Entry>) { forall e | e in es :: KindOf(e) == k }

  // Decoding an encoded list gives the list, with stale times cut to 24 bits.
  lemma {:induction false} EntriesBack(k: Kind, es: seq<Entry>)
    requires OfKind(k, es)
    ensures DecodeEntries(k, EntriesBytes(es)) == CutAll(es)
  {
    hide EntryBytes, EntryOf, Cut;
    if es != [] {
      var b := EntriesBytes(es);
      EntriesBack(k, es[1..]);
      EntryBack(es[0]);
      EntryLength(es[0]);
      assert b[..Width(k)] == EntryBytes(es[0]) && b[Width(k)..] == EntriesBytes(es[1..]);
    }
  }

  lemma EntryLength(e: Entry)
    ensures |EntryBytes(e)| == Width(KindOf(e))
  {
  }

  // So lists come back as they are exactly when all times fit their field.
  lemma {:induction false} CutNothing(es: seq<Entry>)
    ensures CutAll(es) == es <==> forall e | e in es :: e.Stale? ==> e.time < 0x100_0000
  {
    if es != [] {
      CutNothing(es[1..]);
      assert es == [es[0]] + es[1..];
      assert CutAll(es)[0] == Cut(es[0]) && CutAll(es)[1..] == CutAll(es[1..]);
      assert forall e :: e in es <==> e == es[0] || e in es[1..];
    }
  }

  // ----- tuples do not affect each other -----

  lemma Boundary(k: Kind, n: nat)
    requires n % Width(k) == 0 && n > 0
    ensures n >= Width(k) && (n - Width(k)) % Width(k) == 0
  {
  }

  lemma {:induction false} DecodeConcat(k: Kind, a: Bytes, b: Bytes)
    requires |a| % Width(k) == 0
    ensures DecodeEntries(k, a + b) == DecodeEntries(k, a) + DecodeEntries(k, b)
    decreases |a|
  {
    hide EntryOf;
    if a == [] {
      assert a + b == b && DecodeEntries(k, a) == [];
    } else {
      Boundary(k, |a|);
      DecodeConcat(k, a[Width(k)..], b);
      FirstTuple(k, a, b);
    }
  }

  lemma FirstTuple(k: Kind, a: Bytes, b: Bytes)
    requires |a| >= Width(k)
    ensures (a + b)[..Width(k)] == a[..Width(k)] && (a + b)[Width(k)..] == a[Width(k)..] + b
  {
  }

  // A whole tuple with an unknown family (or mode), put at any tuple boundary, changes
  // nothing.
  lemma UnknownTupleIgnored(k: Kind, a: Bytes, t: Bytes, b: Bytes)
    requires |a| % Width(k) == 0 && |t| == Width(k) && EntryOf(k, t).None?
    ensures DecodeEntries(k, a + t + b) == DecodeEntries(k, a + b)
  {
    hide DecodeEntries;
    assert a + t + b == a + (t + b);
    DecodeConcat(k, a, t + b);
    DecodeConcat(k, a, b);
    SkippedTuple(k, t, b);
  }

  lemma SkippedTuple(k: Kind, t: Bytes, b: Bytes)
    requires |t| == Width(k) && EntryOf(k, t).None?
    ensures DecodeEntries(k, t + b) == DecodeEntries(k, b)
  {
    hide EntryOf;
    assert (t + b)[..Width(k)] == t && (t + b)[Width(k)..] == b;
  }

  lemma UnknownFamily(k: Kind, t: Bytes)
    requires |t| == Width(k) && (AfiOf(U16(t[..2])).None? || SafiOf(t[2]).None?)
    ensures EntryOf(k, t).None?
  {
  }

  // ----- graceful restart: the header -----

  datatype GracefulRestart = GracefulRestart(restartTime: u16, restartState: bool, families: seq<Entry>)

  function RestartBytes(g: GracefulRestart): Bytes {
    var t := g.restartTime % 0x1000;
    [Flag(g.restartState) + t / 0x100, t % 0x100] + EntriesBytes(g.families)
  }

  function RestartOf(b: Bytes): Option<GracefulRestart> {
    if |b| < 2 then None
    else Some(GracefulRestart((b[0] as int % 0x10) * 0x100 + b[1], b[0] >= 0x80, DecodeEntries(RestartKind, b[2..])))
  }

  // The restart time comes back exactly when it fits twelve bits; everything else always.
  lemma RestartBack(g: GracefulRestart)
    requires OfKind(RestartKind, g.families)
    ensures RestartOf(RestartBytes(g)) == Some(g.(restartTime := g.restartTime % 0x1000))
    ensures RestartOf(RestartBytes(g)) == Some(g) <==> g.restartTime < 0x1000
  {
    hide EntriesBytes, DecodeEntries;
    var b := RestartBytes(g);
    assert b[2..] == EntriesBytes(g.families);
    EntriesBack(RestartKind, g.families);
    CutNothing(g.families);
  }

  // ----- the offset loop shared by `as_add_path`, `as_graceful_restart` and `as_llgr` -----

  method DecodeLoop(k: Kind, val: Bytes, start: nat) returns (entries: seq<Entry>)
    requires start <= |val|
    ensures entries == DecodeEntries(k, val[start..])
  {
    hide EntryOf;
    entries := [];
    var offset := start;
    assert [] + DecodeEntries(k, val[start..]) == DecodeEntries(k, val[start..]);
    while offset + Width(k) <= |val|
      invariant start <= offset <= |val|
      invariant DecodeEntries(k, val[start..]) == entries + DecodeEntries(k, val[offset..])
    {
      var tuple := val[offset..offset + Width(k)];
      var e := EntryOf(k, tuple);
      assert val[offset..][..Width(k)] == tuple && val[offset..][Width(k)..] == val[offset + Width(k)..];
      if e.Some? {
        assert entries + ([e.value] + DecodeEntries(k, val[offset + Width(k)..])) ==
               entries + [e.value] + DecodeEntries(k, val[offset + Width(k)..]);
        entries := entries + [e.value];
      }
      offset := offset + Width(k);
    }
  }
}
