/** The names by which listeners, server groups and backends are attributed to a service:
    printing, loading, and the ownership test on a loaded name. */
module NamedKeys {
  import opened Common

  const DEFAULT_PREFIX := "k8s"

  // ---- splitting and joining -------------------------------------------------------

  function Split(s: string, sep: char): (r: seq<string>)
    ensures |r| >= 1
  {
    if s == "" then [""]
    else
      var rest := Split(s[1..], sep);
      if s[0] == sep then [""] + rest else [[s[0]] + rest[0]] + rest[1..]
  }

  function Join(parts: seq<string>, sep: char): string
    requires |parts| >= 1
  {
    if |parts| == 1 then parts[0] else parts[0] + [sep] + Join(parts[1..], sep)
  }

  ghost predicate FreeOf(parts: seq<string>, sep: char) {
    forall i :: 0 <= i < |parts| ==> sep !in parts[i]
  }

  lemma {:induction false} JoinSplit(s: string, sep: char)
    ensures Join(Split(s, sep), sep) == s
  {
    if s != "" {
      JoinSplit(s[1..], sep);
      var rest := Split(s[1..], sep);
      if s[0] == sep {
        assert ([""] + rest)[1..] == rest;
      } else {
        assert ([[s[0]] + rest[0]] + rest[1..])[1..] == rest[1..];
      }
    }
  }

  lemma {:induction false} SplitIsFree(s: string, sep: char)
    ensures FreeOf(Split(s, sep), sep)
  {
    if s != "" { SplitIsFree(s[1..], sep); }
  }

  lemma {:induction false} SplitOfFree(s: string, sep: char)
    requires sep !in s
    ensures Split(s, sep) == [s]
  {
    if s != "" {
      SplitOfFree(s[1..], sep);
      assert s == [s[0]] + s[1..];
    }
  }

  lemma {:induction false} SplitAtSeparator(head: string, tail: string, sep: char)
    requires sep !in head
    ensures Split(head + [sep] + tail, sep) == [head] + Split(tail, sep)
  {
    var s := head + [sep] + tail;
    if head == "" {
      assert s[1..] == tail;
    } else {
      assert s[1..] == head[1..] + [sep] + tail && head == [head[0]] + head[1..];
      SplitAtSeparator(head[1..], tail, sep);
    }
  }

  lemma {:induction false} SplitJoinOfFree(parts: seq<string>, sep: char)
    requires |parts| >= 1 && FreeOf(parts, sep)
    ensures Split(Join(parts, sep), sep) == parts
  {
    if |parts| == 1 {
      SplitOfFree(parts[0], sep);
    } else {
      SplitAtSeparator(parts[0], Join(parts[1..], sep), sep);
      assert FreeOf(parts[1..], sep);
      SplitJoinOfFree(parts[1..], sep);
    }
  }

  /** Splitting undoes joining exactly when no part contains the separator. */
  lemma SplitJoin(parts: seq<string>, sep: char)
    requires |parts| >= 1
    ensures Split(Join(parts, sep), sep) == parts <==> FreeOf(parts, sep)
  {
    SplitIsFree(Join(parts, sep), sep);
    if FreeOf(parts, sep) { SplitJoinOfFree(parts, sep); }
  }

  // ---- decimal ports ---------------------------------------------------------------

  const DIGITS: string := "0123456789"

  function Digits(n: nat): (s: string)
    ensures |s| >= 1
  {
    if n < 10 then [DIGITS[n]] else Digits(n / 10) + [DIGITS[n % 10]]
  }

  predicate IsDigit(c: char) { '0' <= c <= '9' }

  function DigitsValue(s: string): Option<nat> {
    if s == "" then Some(0)
    else
      var last := s[|s| - 1];
      match DigitsValue(s[..|s| - 1])
      case Some(v) => if IsDigit(last) then Some(10 * v + (last - '0') as nat) else None
      case None => None
  }

  function Itoa(n: int): string { if n < 0 then "-" + Digits(-n) else Digits(n) }

  /** A signed 64-bit value from its digits. */
  function Magnitude(negative: bool, digits: string): Option<int> {
    if digits == "" then None
    else match DigitsValue(digits)
      case None => None
      case Some(v) =>
        var n := if negative then 0 - v else v + 0;
        if -0x8000_0000_0000_0000 <= n < 0x8000_0000_0000_0000 then Some(n) else None
  }

  /** Decimal integers of 64 bits with an optional sign. */
  function Atoi(s: string): Option<int> {
    if s != "" && s[0] == '-' then Magnitude(true, s[1..])
    else if s != "" && s[0] == '+' then Magnitude(false, s[1..])
    else Magnitude(false, s)
  }

  predicate IsInt32(n: int) { -0x8000_0000 <= n < 0x8000_0000 }

  /** The conversion of a 64-bit integer to 32 bits. */
  function ToInt32(n: int): (r: int)
    ensures IsInt32(r) && (r - n) % 0x1_0000_0000 == 0
  {
    (n + 0x8000_0000) % 0x1_0000_0000 - 0x8000_0000
  }

  lemma {:induction false} DigitsRoundTrip(n: nat)
    ensures DigitsValue(Digits(n)) == Some(n)
    ensures forall i :: 0 <= i < |Digits(n)| ==> IsDigit(Digits(n)[i])
  {
    if n >= 10 {
      DigitsRoundTrip(n / 10);
      assert Digits(n)[..|Digits(n)| - 1] == Digits(n / 10);
    } else {
      assert Digits(n)[..0] == "";
    }
  }

  lemma MagnitudeOfDigits(n: nat, negative: bool)
    requires n <= 0x8000_0000
    ensures Magnitude(negative, Digits(n)) == Some(if negative then 0 - n else n + 0)
    ensures IsDigit(Digits(n)[0])
  {
    DigitsRoundTrip(n);
  }

  /** The text of a number: a sign only before a negative one, no leading zero. */
  lemma {:induction false} DigitsArePlain(n: nat)
    ensures |Digits(n)| > 1 ==> Digits(n)[0] != '0'
  {
    DigitsRoundTrip(n);
    if n >= 10 { DigitsArePlain(n / 10); }
  }

  lemma ItoaIsPlain(n: int)
    ensures n >= 0 ==> forall i :: 0 <= i < |Itoa(n)| ==> '0' <= Itoa(n)[i] <= '9'
    ensures n < 0 ==> Itoa(n) == "-" + Itoa(-n)
    ensures |Itoa(n)| > 1 ==> Itoa(n)[0] != '0'
  {
    DigitsRoundTrip(if n < 0 then -n else n);
    DigitsArePlain(if n < 0 then -n else n);
  }

  /** What reads as a number: digits that fit 64 bits, with an optional sign, and at least one. */
  lemma AtoiReads(n: nat)
    ensures Atoi(Itoa(n)) == Atoi("+" + Itoa(n)) == if n < 0x8000_0000_0000_0000 then Some(n) else None
    ensures Atoi("-" + Itoa(n)) == if n <= 0x8000_0000_0000_0000 then Some(0 - n) else None
    ensures Atoi("") == Atoi("+") == Atoi("-") == None
  {
    DigitsRoundTrip(n);
    assert ("+" + Itoa(n))[1..] == Itoa(n) && ("-" + Itoa(n))[1..] == Itoa(n);
  }

  lemma AtoiItoa(n: int)
    requires IsInt32(n)
    ensures Atoi(Itoa(n)) == Some(n)
  {
    var m: nat := if n < 0 then -n else n;
    MagnitudeOfDigits(m, n < 0);
    if n < 0 { assert Itoa(n)[1..] == Digits(m); }
  }

  // ---- classic load balancer keys: five parts, separated by '/' ----------------------

  /** Who owns a named resource. */
  datatype Owner = Owner(serviceName: string, namespace: string, cid: string)

  datatype VGroupNamedKey = VGroupNamedKey(prefix: string, owner: Owner, vgroupPort: string)

  datatype ListenerNamedKey = ListenerNamedKey(prefix: string, owner: Owner, port: int)

  /** Printing fills in a missing prefix. */
  function Filled(prefix: string): (r: string)
    ensures r == prefix || (prefix == "" && r == "k8s")
    ensures r != ""
  {
    if prefix == "" then DEFAULT_PREFIX else prefix
  }

  function VGroupParts(k: VGroupNamedKey): seq<string> {
    [Filled(k.prefix), k.vgroupPort, k.owner.serviceName, k.owner.namespace, k.owner.cid]
  }

  function VGroupKey(k: VGroupNamedKey): string { Join(VGroupParts(k), '/') }

  function LoadVGroupNamedKey(key: string): Option<VGroupNamedKey> {
    var metas := Split(key, '/');
    if |metas| != 5 || metas[0] != DEFAULT_PREFIX then None
    else Some(VGroupNamedKey(DEFAULT_PREFIX, Owner(metas[2], metas[3], metas[4]), metas[1]))
  }

  /** Loading a printed key gives the key back, with its prefix filled in, exactly when
      the prefix is the default one and no component contains the separator. */
  lemma VGroupKeyRoundTrip(k: VGroupNamedKey)
    ensures LoadVGroupNamedKey(VGroupKey(k)) == Some(k.(prefix := Filled(k.prefix)))
            <==> Filled(k.prefix) == DEFAULT_PREFIX && FreeOf(VGroupParts(k), '/')
  {
    SplitJoin(VGroupParts(k), '/');
    var metas := Split(VGroupKey(k), '/');
    if LoadVGroupNamedKey(VGroupKey(k)) == Some(k.(prefix := Filled(k.prefix))) {
      assert metas == VGroupParts(k);
    }
  }

  /** A name that loads is the printed form of the key it loads to. */
  lemma VGroupKeyPrintsBack(s: string)
    requires LoadVGroupNamedKey(s).Some?
    ensures VGroupKey(LoadVGroupNamedKey(s).value) == s
  {
    JoinSplit(s, '/');
    assert VGroupParts(LoadVGroupNamedKey(s).value) == Split(s, '/');
  }

  function ListenerParts(k: ListenerNamedKey): seq<string> {
    [Filled(k.prefix), Itoa(k.port), k.owner.serviceName, k.owner.namespace, k.owner.cid]
  }

  function ListenerKey(k: ListenerNamedKey): string { Join(ListenerParts(k), '/') }

  function LoadListenerNamedKey(key: string): Option<ListenerNamedKey> {
    var metas := Split(key, '/');
    if |metas| != 5 || metas[0] != DEFAULT_PREFIX then None
    else match Atoi(metas[1])
      case None => None
      case Some(port) => Some(ListenerNamedKey(DEFAULT_PREFIX, Owner(metas[2], metas[3], metas[4]), ToInt32(port)))
  }

  lemma ItoaIsFree(n: int, sep: char)
    requires IsInt32(n) && (sep == '/' || sep == '.')
    ensures sep !in Itoa(n)
  {
    DigitsRoundTrip(if n < 0 then -n else n);
  }

  lemma ListenerKeyRoundTrip(k: ListenerNamedKey)
    requires IsInt32(k.port)
    ensures LoadListenerNamedKey(ListenerKey(k)) == Some(k.(prefix := Filled(k.prefix)))
            <==> Filled(k.prefix) == DEFAULT_PREFIX && FreeOf(ListenerParts(k), '/')
  {
    var parts, metas := ListenerParts(k), Split(ListenerKey(k), '/');
    SplitJoin(parts, '/');
    SplitIsFree(ListenerKey(k), '/');
    AtoiItoa(k.port);
    ItoaIsFree(k.port, '/');
    if LoadListenerNamedKey(ListenerKey(k)) == Some(k.(prefix := Filled(k.prefix))) {
      assert parts == metas[1 := parts[1]];
    }
  }

  /** Replacing one part of a split name changes the name, unless the part is the same. */
  lemma JoinPart(s: string, sep: char, i: nat, part: string)
    requires i < |Split(s, sep)| && sep !in part
    ensures Join(Split(s, sep)[i := part], sep) == s <==> part == Split(s, sep)[i]
  {
    var parts := Split(s, sep);
    JoinSplit(s, sep);
    SplitIsFree(s, sep);
    SplitJoinOfFree(parts[i := part], sep);
    if part == parts[i] { assert parts[i := part] == parts; }
  }

  /** A port written the way a 32-bit port is printed: no plus sign, no leading zero, no
      overflow. */
  ghost predicate PlainPort(text: string) { exists p :: IsInt32(p) && text == Itoa(p) }

  lemma PlainPortIsItsValue(text: string)
    requires Atoi(text).Some?
    ensures PlainPort(text) <==> text == Itoa(ToInt32(Atoi(text).value))
  {
    if PlainPort(text) {
      var p :| IsInt32(p) && text == Itoa(p);
      AtoiItoa(p);
      SmallIntKept(p);
    }
  }

  lemma SmallIntKept(n: int)
    requires IsInt32(n)
    ensures ToInt32(n) == n
  {}

  /** A listener name that loads prints back to itself exactly when its port is plain. */
  lemma ListenerKeyPrintsBack(s: string)
    requires LoadListenerNamedKey(s).Some?
    ensures ListenerKey(LoadListenerNamedKey(s).value) == s <==> PlainPort(Split(s, '/')[1])
  {
    var metas := Split(s, '/');
    var port := Itoa(ToInt32(Atoi(metas[1]).value));
    PlainPortIsItsValue(metas[1]);
    ItoaIsFree(ToInt32(Atoi(metas[1]).value), '/');
    JoinPart(s, '/', 1, port);
    assert ListenerParts(LoadListenerNamedKey(s).value) == metas[1 := port];
  }

  /** A leading zero is read but never printed. */
  lemma LeadingZeroLoads()
    ensures Atoi("080") == Some(80) && Itoa(80) == "80"
  {
    assert "080"[..2] == "08" && "08"[..1] == "0" && "0"[..0] == "";
    assert DigitsValue("0") == Some(0);
    assert DigitsValue("08") == Some(8);
  }

  // ---- network load balancer keys: six parts, separated by '.' -----------------------

  datatype SGNamedKey = SGNamedKey(prefix: string, owner: Owner, protocol: string, sgPort: string)

  datatype NlbListenerNamedKey = NlbListenerNamedKey(prefix: string, owner: Owner, protocol: string, port: int)

  function SGParts(k: SGNamedKey): seq<string> {
    [Filled(k.prefix), k.sgPort, k.protocol, k.owner.serviceName, k.owner.namespace, k.owner.cid]
  }

  function SGKey(k: SGNamedKey): string { Join(SGParts(k), '.') }

  function LoadNLBSGNamedKey(key: string): Option<SGNamedKey> {
    var metas := Split(key, '.');
    if |metas| != 6 || metas[0] != DEFAULT_PREFIX then None
    else Some(SGNamedKey(DEFAULT_PREFIX, Owner(metas[3], metas[4], metas[5]), metas[2], metas[1]))
  }

  lemma SGKeyRoundTrip(k: SGNamedKey)
    ensures LoadNLBSGNamedKey(SGKey(k)) == Some(k.(prefix := Filled(k.prefix)))
            <==> Filled(k.prefix) == DEFAULT_PREFIX && FreeOf(SGParts(k), '.')
  {
    SplitJoin(SGParts(k), '.');
    var metas := Split(SGKey(k), '.');
    if LoadNLBSGNamedKey(SGKey(k)) == Some(k.(prefix := Filled(k.prefix))) {
      assert metas == SGParts(k);
    }
  }

  lemma SGKeyPrintsBack(s: string)
    requires LoadNLBSGNamedKey(s).Some?
    ensures SGKey(LoadNLBSGNamedKey(s).value) == s
  {
    JoinSplit(s, '.');
    assert SGParts(LoadNLBSGNamedKey(s).value) == Split(s, '.');
  }

  function NlbListenerParts(k: NlbListenerNamedKey): seq<string> {
    [Filled(k.prefix), Itoa(k.port), k.protocol, k.owner.serviceName, k.owner.namespace, k.owner.cid]
  }

  function NlbListenerKey(k: NlbListenerNamedKey): string { Join(NlbListenerParts(k), '.') }

  function LoadNLBListenerNamedKey(key: string): Option<NlbListenerNamedKey> {
    var metas := Split(key, '.');
    if |metas| != 6 || metas[0] != DEFAULT_PREFIX then None
    else match Atoi(metas[1])
      case None => None
      case Some(port) =>
        Some(NlbListenerNamedKey(DEFAULT_PREFIX, Owner(metas[3], metas[4], metas[5]), metas[2], ToInt32(port)))
  }

  lemma NlbListenerKeyRoundTrip(k: NlbListenerNamedKey)
    requires IsInt32(k.port)
    ensures LoadNLBListenerNamedKey(NlbListenerKey(k)) == Some(k.(prefix := Filled(k.prefix)))
            <==> Filled(k.prefix) == DEFAULT_PREFIX && FreeOf(NlbListenerParts(k), '.')
  {
    var parts, metas := NlbListenerParts(k), Split(NlbListenerKey(k), '.');
    SplitJoin(parts, '.');
    SplitIsFree(NlbListenerKey(k), '.');
    AtoiItoa(k.port);
    ItoaIsFree(k.port, '.');
    if LoadNLBListenerNamedKey(NlbListenerKey(k)) == Some(k.(prefix := Filled(k.prefix))) {
      assert parts == metas[1 := parts[1]];
    }
  }

  // ---- ownership --------------------------------------------------------------------

  /** A backend belongs to a service when its description loads to that owner. */
  predicate ManagedBy(description: string, owner: Owner) {
    var key := LoadVGroupNamedKey(description);
    key.Some? && key.value.owner == owner
  }

  /** The same test on network load balancer servers. */
  predicate NlbManagedBy(description: string, owner: Owner) {
    var key := LoadNLBSGNamedKey(description);
    key.Some? && key.value.owner == owner
  }

  /** The test on listeners of classic load balancers, */
  predicate ListenerManagedBy(description: string, owner: Owner) {
    var key := LoadListenerNamedKey(description);
    key.Some? && key.value.owner == owner
  }

  /** and of network load balancers. */
  predicate NlbListenerManagedBy(description: string, owner: Owner) {
    var key := LoadNLBListenerNamedKey(description);
    key.Some? && key.value.owner == owner
  }

  /** A backend carrying a key of one owner is taken for another owner's exactly when the
      owners are the same: printed keys of separator-free components are injective. */
  lemma NeverTakenForAnothers(k: VGroupNamedKey, other: Owner)
    requires Filled(k.prefix) == DEFAULT_PREFIX && FreeOf(VGroupParts(k), '/')
    ensures ManagedBy(VGroupKey(k), other) <==> other == k.owner
  {
    VGroupKeyRoundTrip(k);
  }

  lemma NlbNeverTakenForAnothers(k: SGNamedKey, other: Owner)
    requires Filled(k.prefix) == DEFAULT_PREFIX && FreeOf(SGParts(k), '.')
    ensures NlbManagedBy(SGKey(k), other) <==> other == k.owner
  {
    SGKeyRoundTrip(k);
  }

  lemma ListenerNeverTakenForAnothers(k: ListenerNamedKey, other: Owner)
    requires IsInt32(k.port) && Filled(k.prefix) == DEFAULT_PREFIX && FreeOf(ListenerParts(k), '/')
    ensures ListenerManagedBy(ListenerKey(k), other) <==> other == k.owner
  {
    ListenerKeyRoundTrip(k);
  }

  lemma NlbListenerNeverTakenForAnothers(k: NlbListenerNamedKey, other: Owner)
    requires IsInt32(k.port) && Filled(k.prefix) == DEFAULT_PREFIX && FreeOf(NlbListenerParts(k), '.')
    ensures NlbListenerManagedBy(NlbListenerKey(k), other) <==> other == k.owner
  {
    NlbListenerKeyRoundTrip(k);
  }

  /** A name that is these parts, joined. */
  ghost predicate Spells(name: string, parts: seq<string>, sep: char) {
    |parts| >= 1 && FreeOf(parts, sep) && name == Join(parts, sep)
  }

  /** The parts of a name of this owner. */
  ghost function ClassicMark(port: string, owner: Owner): seq<string> {
    ["k8s", port, owner.serviceName, owner.namespace, owner.cid]
  }

  ghost function NlbMark(port: string, protocol: string, owner: Owner): seq<string> {
    ["k8s", port, protocol, owner.serviceName, owner.namespace, owner.cid]
  }

  /** What belongs to a service bears its mark, and the other way round; that of a listener has
      a number for its port. */
  lemma ManagedIsMarked(name: string, owner: Owner)
    ensures ManagedBy(name, owner) <==> exists port :: Spells(name, ClassicMark(port, owner), '/')
    ensures ListenerManagedBy(name, owner) <==>
              exists port :: Spells(name, ClassicMark(port, owner), '/') && Atoi(port).Some?
  {
    var metas := Split(name, '/');
    JoinSplit(name, '/');
    SplitIsFree(name, '/');
    forall port | Spells(name, ClassicMark(port, owner), '/')
      ensures metas == ClassicMark(port, owner)
    {
      SplitJoin(ClassicMark(port, owner), '/');
    }
    if ManagedBy(name, owner) {
      assert metas == ClassicMark(metas[1], owner);
      assert Spells(name, ClassicMark(metas[1], owner), '/');
    }
  }

  lemma NlbManagedIsMarked(name: string, owner: Owner)
    ensures NlbManagedBy(name, owner) <==> exists port, protocol :: Spells(name, NlbMark(port, protocol, owner), '.')
    ensures NlbListenerManagedBy(name, owner) <==>
              exists port, protocol :: Spells(name, NlbMark(port, protocol, owner), '.') && Atoi(port).Some?
  {
    var metas := Split(name, '.');
    JoinSplit(name, '.');
    SplitIsFree(name, '.');
    forall port, protocol | Spells(name, NlbMark(port, protocol, owner), '.')
      ensures metas == NlbMark(port, protocol, owner)
    {
      SplitJoin(NlbMark(port, protocol, owner), '.');
    }
    if NlbManagedBy(name, owner) {
      assert metas == NlbMark(metas[1], metas[2], owner);
      assert Spells(name, NlbMark(metas[1], metas[2], owner), '.');
    }
  }

  lemma VGroupKeyInjective(k: VGroupNamedKey, k': VGroupNamedKey)
    requires Filled(k.prefix) == Filled(k'.prefix) == DEFAULT_PREFIX
    requires FreeOf(VGroupParts(k), '/') && FreeOf(VGroupParts(k'), '/')
    requires VGroupKey(k) == VGroupKey(k')
    ensures k.owner == k'.owner && k.vgroupPort == k'.vgroupPort
  {
    VGroupKeyRoundTrip(k);
    VGroupKeyRoundTrip(k');
  }
}
