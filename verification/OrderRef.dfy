/**
 Order tags (ib_trader/engine/order_ref.py), and the prefix by which a bot knows its own
 (ib_trader/bots/runtime.py).
 */
module OrderRef {
  import opened Wrappers

  /** The fields of a tag; `side` is "B" or "S". */
  datatype Info = Info(host: string, botRef: string, symbol: string, side: string, serial: int)

  datatype Encoded = Ok(ref: string) | Err(message: string)

  const PREFIX := "IBT"
  const SEPARATOR := ':'
  const MAX_LENGTH := 128

  /** The text with a separator between any two parts. */
  function Join(parts: seq<string>): string {
    if |parts| == 0 then ""
    else if |parts| == 1 then parts[0]
    else parts[0] + [SEPARATOR] + Join(parts[1..])
  }

  /** The parts of the text around its separators. */
  function Split(s: string): (parts: seq<string>)
    ensures |parts| > 0
  {
    if |s| == 0 then [""]
    else
      var rest := Split(s[1..]);
      if s[0] == SEPARATOR then [""] + rest else [[s[0]] + rest[0]] + rest[1..]
  }

  predicate StartsWith(s: string, prefix: string) {
    prefix <= s
  }

  function Digit(d: int): char
    requires 0 <= d < 10
  {
    ('0' as int + d) as char
  }

  predicate IsDigit(c: char) {
    '0' <= c <= '9'
  }

  function NatText(n: nat): string {
    if n < 10 then [Digit(n)] else NatText(n / 10) + [Digit(n % 10)]
  }

  function IntText(n: int): string {
    if n >= 0 then NatText(n) else "-" + NatText(-n)
  }

  function ParseNat(s: string): Option<nat> {
    if |s| == 0 || !IsDigit(s[|s| - 1]) then None
    else
      var last := s[|s| - 1] as int - '0' as int;
      if |s| == 1 then Some(last)
      else
        match ParseNat(s[..|s| - 1])
        case None => None
        case Some(n) => Some(10 * n + last)
  }

  function ParseInt(s: string): Option<int> {
    var negative := |s| > 0 && s[0] == '-';
    var n := ParseNat(if negative then s[1..] else s);
    if n.None? then None
    else
      var magnitude: int := n.value;
      Some(if negative then 0 - magnitude else magnitude)
  }

  /** The tag of an order; `host` is this box's name. */
  function Encode(host: string, botRef: string, symbol: string, side: string, serial: int): Encoded {
    if SEPARATOR in host then Err("host must not contain ':'")
    else if SEPARATOR in botRef then Err("bot_ref must not contain ':'")
    else if SEPARATOR in symbol then Err("symbol must not contain ':'")
    else if side != "B" && side != "S" then Err("side must be 'B' or 'S'")
    else
      var ref := Join([PREFIX, host, botRef, symbol, side, IntText(serial)]);
      if |ref| > MAX_LENGTH then Err("orderRef too long") else Ok(ref)
  }

  /** The fields of one of our tags, None for anything else. */
  function Decode(ref: string): Option<Info> {
    if !StartsWith(ref, PREFIX + [SEPARATOR]) then None
    else
      var parts := Split(ref);
      if |parts| != 6 || (parts[4] != "B" && parts[4] != "S") then None
      else
        match ParseInt(parts[5])
        case None => None
        case Some(serial) => Some(Info(parts[1], parts[2], parts[3], parts[4], serial))
  }

  /** The test a bot applies to an order update. */
  predicate IsOurs(ref: string, host: string, botRef: string) {
    StartsWith(ref, PREFIX + [SEPARATOR] + host + [SEPARATOR] + botRef + [SEPARATOR])
  }

  // ---- Join and split -------------------------------------------------------------

  ghost predicate Free(parts: seq<string>) {
    forall i :: 0 <= i < |parts| ==> SEPARATOR !in parts[i]
  }

  lemma {:induction false} SplitOnePart(a: string)
    requires SEPARATOR !in a
    ensures Split(a) == [a]
  {
    if |a| > 0 {
      SplitOnePart(a[1..]);
      assert [a[0]] + a[1..] == a;
    }
  }

  lemma {:induction false} SplitFirst(a: string, s: string)
    requires SEPARATOR !in a
    ensures Split(a + [SEPARATOR] + s) == [a] + Split(s)
  {
    var t := a + [SEPARATOR] + s;
    if |a| == 0 {
      assert t[1..] == s;
    } else {
      assert t[1..] == a[1..] + [SEPARATOR] + s;
      SplitFirst(a[1..], s);
      assert [a[0]] + a[1..] == a;
    }
  }

  lemma {:induction false} SplitOfJoin(parts: seq<string>)
    requires |parts| > 0 && Free(parts)
    ensures Split(Join(parts)) == parts
  {
    if |parts| == 1 {
      SplitOnePart(parts[0]);
    } else {
      SplitOfJoin(parts[1..]);
      SplitFirst(parts[0], Join(parts[1..]));
    }
  }

  lemma {:induction false} JoinGrows(c: char, parts: seq<string>)
    requires |parts| > 0
    ensures Join([[c] + parts[0]] + parts[1..]) == [c] + Join(parts)
  {
    var longer := [[c] + parts[0]] + parts[1..];
    if |parts| > 1 {
      assert longer[1..] == parts[1..];
      assert [c] + parts[0] + [SEPARATOR] + Join(parts[1..]) == [c] + (parts[0] + [SEPARATOR] + Join(parts[1..]));
    }
  }

  lemma {:induction false} JoinOfSplit(s: string)
    ensures Join(Split(s)) == s && Free(Split(s))
  {
    if |s| > 0 {
      var rest := Split(s[1..]);
      JoinOfSplit(s[1..]);
      assert [s[0]] + s[1..] == s;
      if s[0] == SEPARATOR {
        assert ([""] + rest)[1..] == rest;
      } else {
        JoinGrows(s[0], rest);
        assert Free(rest);
        assert SEPARATOR !in [s[0]] + rest[0];
      }
    }
  }

  // ---- Numbers ------------------------------------------------------------------------

  lemma {:induction false} ParseOfNatText(n: nat)
    ensures ParseNat(NatText(n)) == Some(n)
    ensures |NatText(n)| > 0 && forall i :: 0 <= i < |NatText(n)| ==> IsDigit(NatText(n)[i])
  {
    if n >= 10 {
      var s := NatText(n);
      ParseOfNatText(n / 10);
      assert s[..|s| - 1] == NatText(n / 10) && s[|s| - 1] == Digit(n % 10);
    }
  }

  lemma {:induction false} ParseOfSigned(s: string, n: nat)
    requires |s| > 0 && IsDigit(s[0]) && ParseNat(s) == Some(n) && SEPARATOR !in s
    ensures ParseInt(s) == Some(n) && ParseInt("-" + s) == Some(0 - n as int) && SEPARATOR !in "-" + s
  {
    assert ("-" + s)[0] == '-' && ("-" + s)[1..] == s;
  }

  lemma {:induction false} ParseOfIntText(n: int)
    ensures ParseInt(IntText(n)) == Some(n) && SEPARATOR !in IntText(n)
  {
    var m := if n >= 0 then n else -n;
    ParseOfNatText(m);
    ParseOfSigned(NatText(m), m);
  }

  // ---- Round trip and ownership -----------------------------------------------------------

  lemma {:induction false} JoinStarts(a: string, parts: seq<string>)
    requires |parts| > 0
    ensures StartsWith(Join([a] + parts), a + [SEPARATOR])
  {
    assert ([a] + parts)[1..] == parts;
  }

  /**
   A tag is refused exactly when a field holds the separator, the side is neither "B" nor "S", or the tag
   is too long; otherwise decoding it gives the fields back.
   */
  lemma {:induction false} DecodeOfEncode(host: string, botRef: string, symbol: string, side: string, serial: int)
    ensures var e := Encode(host, botRef, symbol, side, serial);
            && (e.Ok? <==> Free([host, botRef, symbol]) && (side == "B" || side == "S")
                           && |host| + |botRef| + |symbol| + |IntText(serial)| + 9 <= MAX_LENGTH)
            && (e.Ok? ==> Decode(e.ref) == Some(Info(host, botRef, symbol, side, serial)))
  {
    var parts := [PREFIX, host, botRef, symbol, side, IntText(serial)];
    assert Free([host, botRef, symbol]) <==> SEPARATOR !in host && SEPARATOR !in botRef && SEPARATOR !in symbol by {
      var fields := [host, botRef, symbol];
      assert fields[0] == host && fields[1] == botRef && fields[2] == symbol;
    }
    if Free([host, botRef, symbol]) && (side == "B" || side == "S") {
      ParseOfIntText(serial);
      SixParts(parts);
      assert Free(parts);
      SplitOfJoin(parts);
      JoinStarts(PREFIX, parts[1..]);
      assert [PREFIX] + parts[1..] == parts;
    }
  }

  lemma {:induction false} SixParts(parts: seq<string>)
    requires |parts| == 6
    ensures Join(parts) == parts[0] + [SEPARATOR] + parts[1] + [SEPARATOR] + parts[2] + [SEPARATOR] + Join(parts[3..])
    ensures |Join(parts)| == |parts[0]| + |parts[1]| + |parts[2]| + |parts[3]| + |parts[4]| + |parts[5]| + 5
  {
    var sep := [SEPARATOR];
    JoinFirst(parts);
    JoinFirst(parts[1..]);
    JoinFirst(parts[2..]);
    JoinFirst(parts[3..]);
    JoinFirst(parts[4..]);
    assert parts[1..][1..] == parts[2..] && parts[2..][1..] == parts[3..] && parts[3..][1..] == parts[4..];
    assert parts[0] + sep + (parts[1] + sep + (parts[2] + sep + Join(parts[3..])))
        == parts[0] + sep + parts[1] + sep + parts[2] + sep + Join(parts[3..]);
  }

  lemma {:induction false} JoinFirst(parts: seq<string>)
    requires |parts| > 1
    ensures Join(parts) == parts[0] + [SEPARATOR] + Join(parts[1..])
    ensures |parts| == 2 ==> Join(parts[1..]) == parts[1]
  {
  }

  lemma {:induction false} StartsWithRest(x: string, y: string)
    requires |x| > 0 && |y| > 0
    ensures StartsWith(x, y) <==> x[0] == y[0] && StartsWith(x[1..], y[1..])
  {
    if x[0] == y[0] && StartsWith(x[1..], y[1..]) {
      forall i | 0 <= i < |y| ensures x[i] == y[i] {
        if i > 0 {
          assert x[1..][i - 1] == y[1..][i - 1];
        }
      }
    }
  }

  /** A text goes on after its first separator as another does exactly when they agree before it, too. */
  lemma {:induction false} FirstPart(a: string, b: string, s: string, t: string)
    requires SEPARATOR !in a && SEPARATOR !in b
    ensures StartsWith(a + [SEPARATOR] + s, b + [SEPARATOR] + t) <==> a == b && StartsWith(s, t)
  {
    var x, y := a + [SEPARATOR] + s, b + [SEPARATOR] + t;
    StartsWithRest(x, y);
    if |a| == 0 && |b| == 0 {
      assert x[1..] == s && y[1..] == t;
    } else if |a| > 0 && |b| > 0 {
      FirstPart(a[1..], b[1..], s, t);
      assert x[1..] == a[1..] + [SEPARATOR] + s && y[1..] == b[1..] + [SEPARATOR] + t;
      assert a == [a[0]] + a[1..] && b == [b[0]] + b[1..];
    } else {
      assert x[0] == SEPARATOR || y[0] == SEPARATOR;
    }
  }

  /** A bot takes a decodable tag for its own exactly when the tag decodes to its host and its reference. */
  lemma {:induction false} OursExactly(ref: string, host: string, botRef: string)
    requires Decode(ref).Some? && SEPARATOR !in host && SEPARATOR !in botRef
    ensures IsOurs(ref, host, botRef) <==> Decode(ref).value.host == host && Decode(ref).value.botRef == botRef
  {
    var parts := Split(ref);
    JoinOfSplit(ref);
    SixParts(parts);
    var rest := Join(parts[3..]);
    assert ref == parts[0] + [SEPARATOR] + (parts[1] + [SEPARATOR] + (parts[2] + [SEPARATOR] + rest));
    assert PREFIX + [SEPARATOR] + host + [SEPARATOR] + botRef + [SEPARATOR]
        == PREFIX + [SEPARATOR] + (host + [SEPARATOR] + (botRef + [SEPARATOR] + ""));
    FirstPart(parts[0], PREFIX, parts[1] + [SEPARATOR] + (parts[2] + [SEPARATOR] + rest), "");
    assert PREFIX + [SEPARATOR] + "" == PREFIX + [SEPARATOR];
    FirstPart(parts[0], PREFIX, parts[1] + [SEPARATOR] + (parts[2] + [SEPARATOR] + rest),
              host + [SEPARATOR] + (botRef + [SEPARATOR] + ""));
    FirstPart(parts[1], host, parts[2] + [SEPARATOR] + rest, botRef + [SEPARATOR] + "");
    FirstPart(parts[2], botRef, rest, "");
  }

  // ---- The spelling of a tag ------------------------------------------------------------------

  /** The text of a tag, given its fields and the text of its serial. */
  function Spelled(host: string, botRef: string, symbol: string, side: string, serial: string): string {
    "IBT:" + host + ":" + botRef + ":" + symbol + ":" + side + ":" + serial
  }

  lemma {:induction false} JoinSpells(parts: seq<string>)
    requires |parts| == 6 && parts[0] == PREFIX
    ensures Join(parts) == Spelled(parts[1], parts[2], parts[3], parts[4], parts[5])
  {
    var rest, sep := parts[3..], [SEPARATOR];
    SixParts(parts);
    JoinFirst(rest);
    JoinFirst(rest[1..]);
    assert Join(rest) == parts[3] + sep + (parts[4] + sep + parts[5]);
    assert PREFIX + sep == "IBT:" && sep == ":";
    assert "IBT:" + parts[1] + ":" + parts[2] + ":" + (parts[3] + ":" + (parts[4] + ":" + parts[5]))
        == Spelled(parts[1], parts[2], parts[3], parts[4], parts[5]);
  }

  /** A tag is made exactly for fields without a colon, a side "B" or "S", and a text of at most 128 characters. */
  lemma {:induction false} EncodeSpells(host: string, botRef: string, symbol: string, side: string, serial: int)
    ensures var e, text := Encode(host, botRef, symbol, side, serial),
                           Spelled(host, botRef, symbol, side, IntText(serial));
            && (e.Ok? <==> ':' !in host && ':' !in botRef && ':' !in symbol && (side == "B" || side == "S")
                           && |text| <= 128)
            && (e.Ok? ==> e.ref == text)
  {
    JoinSpells([PREFIX, host, botRef, symbol, side, IntText(serial)]);
  }

  lemma {:induction false} FirstIsPrefix(parts: seq<string>)
    requires |parts| == 6 && Free(parts) && StartsWith(Join(parts), PREFIX + [SEPARATOR])
    ensures parts[0] == PREFIX
  {
    JoinFirst(parts);
    FirstPart(parts[0], PREFIX, Join(parts[1..]), "");
    assert PREFIX + [SEPARATOR] + "" == PREFIX + [SEPARATOR];
  }

  /** A text decodes to these fields exactly when it spells them, with a serial that reads as theirs. */
  lemma {:induction false} DecodesExactly(ref: string, info: Info)
    ensures Decode(ref) == Some(info)
       <==> && (info.side == "B" || info.side == "S")
            && ':' !in info.host && ':' !in info.botRef && ':' !in info.symbol
            && exists serial :: ':' !in serial && ParseInt(serial) == Some(info.serial)
                             && ref == Spelled(info.host, info.botRef, info.symbol, info.side, serial)
  {
    var parts := Split(ref);
    JoinOfSplit(ref);
    if Decode(ref) == Some(info) {
      FirstIsPrefix(parts);
      JoinSpells(parts);
      assert ref == Spelled(info.host, info.botRef, info.symbol, info.side, parts[5]);
    }
    forall serial | (info.side == "B" || info.side == "S") && ':' !in info.host && ':' !in info.botRef
                    && ':' !in info.symbol && ':' !in serial && ParseInt(serial) == Some(info.serial)
                    && ref == Spelled(info.host, info.botRef, info.symbol, info.side, serial)
      ensures Decode(ref) == Some(info)
    {
      SpelledDecodes(ref, info, serial);
    }
  }

  lemma {:induction false} SpelledDecodes(ref: string, info: Info, serial: string)
    requires (info.side == "B" || info.side == "S") && ParseInt(serial) == Some(info.serial)
    requires Free([info.host, info.botRef, info.symbol, serial])
    requires ref == Spelled(info.host, info.botRef, info.symbol, info.side, serial)
    ensures Decode(ref) == Some(info)
  {
    var free := [info.host, info.botRef, info.symbol, serial];
    var fields := [PREFIX, info.host, info.botRef, info.symbol, info.side, serial];
    assert free[0] == info.host && free[1] == info.botRef && free[2] == info.symbol && free[3] == serial;
    assert Free(fields);
    JoinSpells(fields);
    SplitOfJoin(fields);
    JoinFirst(fields);
  }
}
