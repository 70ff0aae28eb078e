/**
 Trace header codec (lib/condukt/trace_context.ex), after W3C Trace Context and W3C Baggage.
 */
module TraceContext {
  import opened Common

  // ------------------------------------------------------- splitting, joining

  function Split(s: string, c: char): (parts: seq<string>)
    ensures parts != []
  {
    if s == [] then [""]
    else
      var parts := Split(s[1..], c);
      if s[0] == c then [""] + parts else [[s[0]] + parts[0]] + parts[1..]
  }

  function Join(parts: seq<string>, c: char): string {
    if parts == [] then "" else if |parts| == 1 then parts[0] else parts[0] + [c] + Join(parts[1..], c)
  }

  predicate Free(parts: seq<string>, c: char) { forall i :: 0 <= i < |parts| ==> c !in parts[i] }

  lemma {:induction false} SplitIsFree(s: string, c: char)
    ensures Free(Split(s, c), c) && Join(Split(s, c), c) == s
  {
    if s == [] {
    } else {
      SplitIsFree(s[1..], c);
      var parts := Split(s[1..], c);
      if s[0] == c {
        assert ([""] + parts)[1..] == parts;
      } else {
        var first := [s[0]] + parts[0];
        assert ([first] + parts[1..])[1..] == parts[1..];
        if |parts| > 1 { assert first + [c] + Join(parts[1..], c) == [s[0]] + (parts[0] + [c] + Join(parts[1..], c)); }
      }
    }
  }

  lemma {:induction false} SplitPart(part: string, rest: string, c: char)
    requires c !in part
    ensures Split(part, c) == [part]
    ensures Split(part + [c] + rest, c) == [part] + Split(rest, c)
  {
    if part == [] {
      assert part + [c] + rest == [c] + rest;
    } else {
      SplitPart(part[1..], rest, c);
      assert part[0] in part && [part[0]] + part[1..] == part;
      assert (part + [c] + rest)[1..] == part[1..] + [c] + rest;
    }
  }

  lemma {:induction false} SplitOfJoin(parts: seq<string>, c: char)
    requires parts != [] && Free(parts, c)
    ensures Split(Join(parts, c), c) == parts
  {
    if |parts| == 1 {
      SplitPart(parts[0], "", c);
    } else {
      SplitOfJoin(parts[1..], c);
      SplitPart(parts[0], Join(parts[1..], c), c);
    }
  }

  // -------------------------------------------------------------- traceparent

  datatype Context = Context(traceId: string, spanId: string, flags: string,
                             tracestate: Option<string>, baggage: Option<string>)

  predicate HexDigit(c: char) { '0' <= c <= '9' || 'a' <= c <= 'f' || 'A' <= c <= 'F' }

  predicate Hex(s: string, n: nat) { |s| == n && forall i :: 0 <= i < |s| ==> HexDigit(s[i]) }

  predicate Zeros(s: string) { forall i :: 0 <= i < |s| ==> s[i] == '0' }

  predicate ValidFields(version: string, traceId: string, spanId: string, flags: string) {
    && Hex(version, 2) && Lower(version) != "ff"
    && Hex(traceId, 32) && !Zeros(traceId) && Hex(spanId, 16) && !Zeros(spanId) && Hex(flags, 2)
  }

  datatype Parsed = Fields(traceId: string, spanId: string, flags: string) | Invalid

  function ParseTraceparent(s: string): Parsed {
    var f := Split(s, '-');
    if (|f| == 4 || (|f| > 4 && f[0] != "00")) && ValidFields(f[0], f[1], f[2], f[3])
    then Fields(Lower(f[1]), Lower(f[2]), Lower(f[3]))
    else Invalid
  }

  function Traceparent(c: Context): string { Join(["00", c.traceId, c.spanId, c.flags], '-') }

  /** What `new` and a parsed header always give: lower-case identifiers, none all zero. */
  predicate Valid(c: Context) {
    ValidFields("00", c.traceId, c.spanId, c.flags)
    && Lower(c.traceId) == c.traceId && Lower(c.spanId) == c.spanId && Lower(c.flags) == c.flags
  }

  lemma HexHasNoDash(s: string, n: nat)
    requires Hex(s, n)
    ensures '-' !in s
  {
  }

  lemma LowerHex(s: string, n: nat)
    requires Hex(s, n)
    ensures Hex(Lower(s), n) && Lower(Lower(s)) == Lower(s) && (Zeros(Lower(s)) <==> Zeros(s))
  {
    forall i | 0 <= i < |s|
      ensures HexDigit(Lower(s)[i]) && LowerChar(Lower(s)[i]) == Lower(s)[i] && (Lower(s)[i] == '0' <==> s[i] == '0')
    {
    }
  }

  /** A parsed header is a valid context, and every valid context survives printing and parsing. */
  lemma {:induction false} ParseOfPrint(c: Context)
    requires Valid(c)
    ensures ParseTraceparent(Traceparent(c)) == Fields(c.traceId, c.spanId, c.flags)
  {
    var f := ["00", c.traceId, c.spanId, c.flags];
    HexHasNoDash(c.traceId, 32);
    HexHasNoDash(c.spanId, 16);
    HexHasNoDash(c.flags, 2);
    assert Free(f, '-');
    SplitOfJoin(f, '-');
  }

  lemma ParsedIsValid(s: string, tracestate: Option<string>, baggage: Option<string>)
    requires ParseTraceparent(s).Fields?
    ensures var p := ParseTraceparent(s); Valid(Context(p.traceId, p.spanId, p.flags, tracestate, baggage))
  {
    var f := Split(s, '-');
    LowerHex(f[1], 32);
    LowerHex(f[2], 16);
    LowerHex(f[3], 2);
    assert Lower("00") == "00";
  }

  /** The fixed layout of version 00, with hex digits of either case. */
  predicate Version00(s: string) {
    && |s| == 55 && s[..2] == "00" && s[2] == s[35] == s[52] == '-'
    && ValidFields(s[..2], s[3..35], s[36..52], s[53..55])
  }

  lemma {:induction false} JoinOfFour(v: string, t: string, p: string, f: string)
    ensures Join([v, t, p, f], '-') == v + "-" + t + "-" + p + "-" + f
  {
    assert [v, t, p, f][1..] == [t, p, f] && [t, p, f][1..] == [p, f] && [p, f][1..] == [f];
    assert Join([f], '-') == f;
    assert Join([p, f], '-') == p + "-" + f;
    assert Join([t, p, f], '-') == t + "-" + (p + "-" + f);
    assert v + "-" + (t + "-" + (p + "-" + f)) == v + "-" + t + "-" + p + "-" + f;
  }

  lemma {:induction false} LayoutIsAccepted(s: string)
    requires Version00(s)
    ensures ParseTraceparent(s).Fields?
  {
    var v, t, p, f := s[..2], s[3..35], s[36..52], s[53..55];
    HexHasNoDash(v, 2);
    HexHasNoDash(t, 32);
    HexHasNoDash(p, 16);
    HexHasNoDash(f, 2);
    JoinOfFour(v, t, p, f);
    assert s == v + "-" + t + "-" + p + "-" + f;
    SplitOfJoin([v, t, p, f], '-');
  }

  lemma {:induction false} AcceptedHasLayout(s: string, f: seq<string>)
    requires |s| >= 2 && s[..2] == "00" && f == Split(s, '-') && ParseTraceparent(s).Fields?
    ensures Version00(s)
  {
    SplitIsFree(s, '-');
    FirstField(s, f);
    assert f == [f[0], f[1], f[2], f[3]];
    JoinOfFour(f[0], f[1], f[2], f[3]);
    Layout(s, f[0], f[1], f[2], f[3]);
  }

  /** Among headers that say version 00, exactly those of the fixed layout are accepted. */
  lemma {:induction false} AcceptsExactlyVersion00(s: string)
    requires |s| >= 2 && s[..2] == "00"
    ensures ParseTraceparent(s).Fields? <==> Version00(s)
  {
    if Version00(s) { LayoutIsAccepted(s); }
    if ParseTraceparent(s).Fields? { AcceptedHasLayout(s, Split(s, '-')); }
  }

  lemma {:induction false} Layout(s: string, v: string, t: string, p: string, f: string)
    requires s == v + "-" + t + "-" + p + "-" + f && |v| == |f| == 2 && |t| == 32 && |p| == 16
    ensures |s| == 55 && s[2] == s[35] == s[52] == '-'
    ensures s[..2] == v && s[3..35] == t && s[36..52] == p && s[53..55] == f
  {
  }

  /** A valid first field is the two characters the header starts with. */
  lemma {:induction false} FirstField(s: string, f: seq<string>)
    requires f != [] && s == Join(f, '-') && |f[0]| == 2 && |s| >= 2
    ensures f[0] == s[..2]
  {
  }

  /** Two hex digits other than ff, 32 and 16 that are not all zero, and two more. */
  predicate GoodFields(v: string, t: string, p: string, f: string) {
    && Hex(v, 2) && v != "ff" && v != "fF" && v != "Ff" && v != "FF"
    && Hex(t, 32) && (exists i | 0 <= i < |t| :: t[i] != '0')
    && Hex(p, 16) && (exists i | 0 <= i < |p| :: p[i] != '0') && Hex(f, 2)
  }

  lemma GoodIsValid(v: string, t: string, p: string, f: string)
    ensures GoodFields(v, t, p, f) <==> ValidFields(v, t, p, f)
  {
    if |v| == 2 {
      assert v == [v[0], v[1]] && Lower(v) == [LowerChar(v[0]), LowerChar(v[1])];
    }
  }

  /** Four good fields, and after them nothing, or more fields if the version is not 00. */
  predicate Laid(s: string, v: string, t: string, p: string, f: string, rest: string) {
    && GoodFields(v, t, p, f) && s == v + "-" + t + "-" + p + "-" + f + rest
    && (rest == "" || (v != "00" && rest[0] == '-'))
  }

  lemma {:induction false} LaidIsAccepted(s: string, v: string, t: string, p: string, f: string, rest: string)
    requires Laid(s, v, t, p, f, rest)
    ensures ParseTraceparent(s) == Fields(Lower(t), Lower(p), Lower(f))
  {
    GoodIsValid(v, t, p, f);
    HexHasNoDash(v, 2);
    HexHasNoDash(t, 32);
    HexHasNoDash(p, 16);
    HexHasNoDash(f, 2);
    var s3 := f + rest;
    var s2 := p + ['-'] + s3;
    var s1 := t + ['-'] + s2;
    assert s == v + ['-'] + s1;
    SplitPart(v, s1, '-');
    SplitPart(t, s2, '-');
    SplitPart(p, s3, '-');
    if rest == "" {
      assert f + rest == f;
      SplitPart(f, "", '-');
    } else {
      assert s3 == f + ['-'] + rest[1..];
      SplitPart(f, rest[1..], '-');
    }
  }

  lemma {:induction false} AcceptedIsLaid(s: string, f: seq<string>) returns (rest: string)
    requires f == Split(s, '-') && ParseTraceparent(s).Fields?
    ensures |f| >= 4 && Laid(s, f[0], f[1], f[2], f[3], rest)
  {
    SplitIsFree(s, '-');
    var tail := f[4..];
    rest := if tail == [] then "" else ['-'] + Join(tail, '-');
    GoodIsValid(f[0], f[1], f[2], f[3]);
    JoinOfMore(f[0], f[1], f[2], f[3], tail);
    assert f == [f[0], f[1], f[2], f[3]] + tail;
  }

  lemma {:induction false} JoinOfMore(v: string, t: string, p: string, f: string, tail: seq<string>)
    ensures Join([v, t, p, f] + tail, '-')
            == v + "-" + t + "-" + p + "-" + f + (if tail == [] then "" else ['-'] + Join(tail, '-'))
  {
    if tail == [] {
      assert [v, t, p, f] + tail == [v, t, p, f];
      JoinOfFour(v, t, p, f);
    } else {
      var more := ['-'] + Join(tail, '-');
      assert ([v, t, p, f] + tail)[1..] == [t, p, f] + tail && ([t, p, f] + tail)[1..] == [p, f] + tail;
      assert ([p, f] + tail)[1..] == [f] + tail && ([f] + tail)[1..] == tail;
      assert Join([f] + tail, '-') == f + more;
      assert Join([p, f] + tail, '-') == p + "-" + (f + more);
      assert Join([t, p, f] + tail, '-') == t + "-" + (p + "-" + (f + more));
      assert v + "-" + (t + "-" + (p + "-" + (f + more))) == v + "-" + t + "-" + p + "-" + f + more;
    }
  }

  /** Whatever its version, a header is accepted exactly when it is laid out like that, and
      then gives its own fields in lower case. */
  lemma AcceptsExactlyTheLaidOut(s: string, traceId: string, spanId: string, flags: string)
    ensures ParseTraceparent(s) == Fields(traceId, spanId, flags)
            <==> exists v, t, p, f, rest :: Laid(s, v, t, p, f, rest)
                                           && traceId == Lower(t) && spanId == Lower(p) && flags == Lower(f)
  {
    if ParseTraceparent(s) == Fields(traceId, spanId, flags) {
      var f := Split(s, '-');
      var rest := AcceptedIsLaid(s, f);
      assert Laid(s, f[0], f[1], f[2], f[3], rest);
    }
    forall v, t, p, f, rest | Laid(s, v, t, p, f, rest)
      ensures ParseTraceparent(s) == Fields(Lower(t), Lower(p), Lower(f))
    {
      LaidIsAccepted(s, v, t, p, f, rest);
    }
  }

  predicate LowerHexDigit(c: char) { '0' <= c <= '9' || 'a' <= c <= 'f' }

  predicate LowerHexField(s: string) { forall i :: 0 <= i < |s| ==> LowerHexDigit(s[i]) }

  /** The layout of section 3.2 of W3C Trace Context, whose digits are lower case. */
  predicate Standard00(s: string) {
    && |s| == 55 && s[..2] == "00" && s[2] == s[35] == s[52] == '-'
    && LowerHexField(s[3..35]) && !Zeros(s[3..35]) && LowerHexField(s[36..52]) && !Zeros(s[36..52])
    && LowerHexField(s[53..55])
  }

  lemma LowerOfField(s: string, lo: nat, hi: nat)
    requires lo <= hi <= |s|
    ensures Lower(s)[lo..hi] == Lower(s[lo..hi])
    ensures Hex(s[lo..hi], hi - lo) <==> LowerHexField(Lower(s)[lo..hi])
    ensures Zeros(s[lo..hi]) <==> Zeros(Lower(s)[lo..hi])
  {
    var f, g := s[lo..hi], Lower(s)[lo..hi];
    assert g == Lower(f);
    assert forall i :: 0 <= i < |f| ==> g[i] == LowerChar(f[i]);
    assert forall i :: 0 <= i < |f| ==> f[i] == f[i] && (g[i] == '0' <==> f[i] == '0');
    assert forall i :: 0 <= i < |g| ==> (HexDigit(f[i]) <==> LowerHexDigit(g[i]));
  }

  lemma VersionOfLower(s: string)
    requires |s| >= 2
    ensures s[..2] == "00" <==> Lower(s)[..2] == "00"
  {
    assert s[..2] == [s[0], s[1]] && Lower(s)[..2] == [LowerChar(s[0]), LowerChar(s[1])];
  }

  lemma {:induction false} LayoutInAnyCase(s: string)
    requires |s| >= 2 && s[..2] == "00"
    ensures Version00(s) <==> Standard00(Lower(s))
  {
    VersionOfLower(s);
    assert Hex("00", 2) && Lower("00") == "00" != "ff";
    if |s| == 55 {
      LowerOfField(s, 3, 35);
      LowerOfField(s, 36, 52);
      LowerOfField(s, 53, 55);
    }
  }

  /** Of headers that say version 00, those are accepted whose lower case is standard ... */
  lemma {:induction false} AcceptsTheStandardInAnyCase(s: string)
    requires |s| >= 2 && s[..2] == "00"
    ensures ParseTraceparent(s).Fields? <==> Standard00(Lower(s))
  {
    AcceptsExactlyVersion00(s);
    LayoutInAnyCase(s);
  }

  lemma LowerStaysLower(s: string)
    requires Standard00(s)
    ensures Lower(s) == s
  {
    forall i | 0 <= i < |s|
      ensures LowerChar(s[i]) == s[i]
    {
      if i < 2 { assert s[i] == s[..2][i]; }
      else if 3 <= i < 35 { assert s[i] == s[3..35][i - 3]; }
      else if 36 <= i < 52 { assert s[i] == s[36..52][i - 36]; }
      else if 53 <= i { assert s[i] == s[53..55][i - 53]; }
    }
  }

  /** ... so an accepted one is standard exactly when it has no upper-case letter. */
  lemma {:induction false} StandardExactlyWhenLower(s: string)
    requires |s| >= 2 && s[..2] == "00" && ParseTraceparent(s).Fields?
    ensures Standard00(s) <==> Lower(s) == s
  {
    AcceptsTheStandardInAnyCase(s);
    if Standard00(s) { LowerStaysLower(s); }
  }

  /** A header the standard forbids and the parser accepts. */
  lemma {:induction false} UpperCaseIsAccepted() returns (s: string)
    ensures ParseTraceparent(s).Fields? && !Standard00(s)
  {
    var t, p, f := seq(32, _ => 'A'), seq(16, _ => 'b'), "01";
    s := "00" + "-" + t + "-" + p + "-" + f;
    Layout(s, "00", t, p, f);
    assert t[0] == 'A' && p[0] == 'b' && Lower("00") == "00";
    AcceptsExactlyVersion00(s);
    assert s[3..35][0] == 'A';
  }

  // ------------------------------------------------------------------ baggage

  type Byte = b: int | 0 <= b < 256

  const SESSION_KEY := "condukt.session.id"

  predicate Unreserved(b: Byte) {
    48 <= b <= 57 || 65 <= b <= 90 || 97 <= b <= 122 || b == 126 || b == 95 || b == 45 || b == 46
  }

  function HexUpper(n: int): char
    requires 0 <= n < 16
  {
    if n < 10 then (48 + n) as char else (55 + n) as char
  }

  function EncodeByte(b: Byte): string {
    if Unreserved(b) then [b as char] else ['%', HexUpper(b / 16), HexUpper(b % 16)]
  }

  /** Percent-encoding of everything but unreserved characters. */
  function Encode(id: seq<Byte>): string { if id == [] then "" else EncodeByte(id[0]) + Encode(id[1..]) }

  function HexValue(c: char): Option<int> {
    if '0' <= c <= '9' then Some(c as int - 48) else if 'A' <= c <= 'F' then Some(c as int - 55) else None
  }

  function Decode(s: string): Option<seq<Byte>>
    decreases |s|
  {
    if s == [] then Some([])
    else if s[0] != '%' then
      if s[0] as int >= 256 then None
      else match Decode(s[1..]) case Some(rest) => Some([s[0] as int] + rest) case None => None
    else if |s| < 3 || HexValue(s[1]).None? || HexValue(s[2]).None? then None
    else match Decode(s[3..])
      case Some(rest) => Some([16 * HexValue(s[1]).value + HexValue(s[2]).value] + rest)
      case None => None
  }

  lemma HexRoundTrip(n: int)
    requires 0 <= n < 16
    ensures HexValue(HexUpper(n)) == Some(n)
  {
  }

  lemma {:induction false} DecodePlain(c: char, rest: string, id: seq<Byte>)
    requires c != '%' && c as int < 256 && Decode(rest) == Some(id)
    ensures Decode([c] + rest) == Some([c as int] + id)
  {
    assert ([c] + rest)[1..] == rest;
  }

  lemma {:induction false} DecodeEscape(b: Byte, rest: string, id: seq<Byte>)
    requires Decode(rest) == Some(id)
    ensures Decode(['%', HexUpper(b / 16), HexUpper(b % 16)] + rest) == Some([b] + id)
  {
    var s := ['%', HexUpper(b / 16), HexUpper(b % 16)] + rest;
    HexRoundTrip(b / 16);
    HexRoundTrip(b % 16);
    assert s[3..] == rest && s[1] == HexUpper(b / 16) && s[2] == HexUpper(b % 16);
    assert 16 * (b / 16) + b % 16 == b;
  }

  /** The session id can be read back from its entry. */
  lemma {:induction false} DecodeOfEncode(id: seq<Byte>)
    ensures Decode(Encode(id)) == Some(id)
  {
    if id == [] {
    } else {
      DecodeOfEncode(id[1..]);
      if Unreserved(id[0]) {
        DecodePlain(id[0] as char, Encode(id[1..]), id[1..]);
      } else {
        DecodeEscape(id[0], Encode(id[1..]), id[1..]);
      }
      assert [id[0]] + id[1..] == id;
    }
  }

  /** Only unreserved characters and percent escapes are ever printed ... */
  lemma {:induction false} EncodedIsUnreservedOrEscaped(id: seq<Byte>, c: char)
    requires c in Encode(id)
    ensures c as int < 128 && (c == '%' || Unreserved(c as int))
  {
    if id == [] {
    } else if c in Encode(id[1..]) {
      EncodedIsUnreservedOrEscaped(id[1..], c);
    } else {
      assert c in EncodeByte(id[0]);
    }
  }

  /** ... and an id of unreserved characters is printed as it is. */
  lemma {:induction false} UnreservedIsPrintedAsItIs(id: seq<Byte>)
    requires forall i :: 0 <= i < |id| ==> Unreserved(id[i])
    ensures |Encode(id)| == |id| && forall i :: 0 <= i < |id| ==> Encode(id)[i] as int == id[i]
  {
    if id == [] {
    } else {
      UnreservedIsPrintedAsItIs(id[1..]);
      assert Encode(id) == [id[0] as char] + Encode(id[1..]);
    }
  }

  lemma {:induction false} EncodeIsPlain(id: seq<Byte>)
    ensures ',' !in Encode(id) && ';' !in Encode(id) && '=' !in Encode(id)
  {
    if id == [] {
    } else {
      EncodeIsPlain(id[1..]);
      var head := EncodeByte(id[0]);
      assert ',' !in head && ';' !in head && '=' !in head;
    }
  }

  function SessionEntry(id: seq<Byte>): string { SESSION_KEY + "=" + Encode(id) }

  function Before(s: string, c: char): string { Split(s, c)[0] }

  /** `norm` is what trimming and lower-casing make of a key. */
  function KeyOf(item: string, norm: string -> string): string { norm(Before(Before(item, ';'), '=')) }

  function DropEmpty(items: seq<string>): seq<string> {
    if items == [] then [] else (if items[0] != "" then [items[0]] else []) + DropEmpty(items[1..])
  }

  /** `String.split(",", trim: true)`. */
  function Items(s: string): seq<string> { DropEmpty(Split(s, ',')) }

  predicate IsSession(item: string, norm: string -> string) { KeyOf(item, norm) == SESSION_KEY }

  function UnlessSession(item: string, norm: string -> string): seq<string> {
    if IsSession(item, norm) then [] else [item]
  }

  function Others(items: seq<string>, norm: string -> string): seq<string> {
    if items == [] then [] else UnlessSession(items[0], norm) + Others(items[1..], norm)
  }

  /** The baggage entries other than the session's. */
  function Kept(baggage: Option<string>, norm: string -> string): seq<string> {
    if baggage.None? then [] else Others(Items(baggage.value), norm)
  }

  function Baggage(existing: Option<string>, id: seq<Byte>, norm: string -> string): string {
    var rest := Join(Kept(existing, norm), ',');
    if rest == "" then SessionEntry(id) else rest + "," + SessionEntry(id)
  }

  predicate Clean(items: seq<string>) { Free(items, ',') && forall i :: 0 <= i < |items| ==> items[i] != "" }

  lemma {:induction false} DropEmptyCleans(items: seq<string>)
    requires Free(items, ',')
    ensures Clean(DropEmpty(items))
    ensures Clean(items) ==> DropEmpty(items) == items
  {
    if items == [] {
    } else {
      assert Free(items[1..], ',');
      DropEmptyCleans(items[1..]);
    }
  }

  lemma {:induction false} OthersKeepsClean(items: seq<string>, norm: string -> string)
    requires Clean(items)
    ensures Clean(Others(items, norm))
    ensures forall i :: 0 <= i < |Others(items, norm)| ==> !IsSession(Others(items, norm)[i], norm)
  {
    if items == [] {
    } else {
      assert Clean(items[1..]);
      OthersKeepsClean(items[1..], norm);
    }
  }

  lemma {:induction false} OthersDropsTheLast(items: seq<string>, last: string, norm: string -> string)
    requires IsSession(last, norm) && forall i :: 0 <= i < |items| ==> !IsSession(items[i], norm)
    ensures Others(items + [last], norm) == items
  {
    var all := items + [last];
    if items == [] {
      assert all[1..] == [];
    } else {
      OthersDropsTheLast(items[1..], last, norm);
      assert all[0] == items[0] && all[1..] == items[1..] + [last];
      assert UnlessSession(items[0], norm) == [items[0]];
    }
  }

  lemma KeptIsClean(baggage: Option<string>, norm: string -> string)
    ensures Clean(Kept(baggage, norm))
    ensures forall i :: 0 <= i < |Kept(baggage, norm)| ==> !IsSession(Kept(baggage, norm)[i], norm)
  {
    if baggage.Some? {
      SplitIsFree(baggage.value, ',');
      DropEmptyCleans(Split(baggage.value, ','));
      OthersKeepsClean(Items(baggage.value), norm);
    }
  }

  lemma {:induction false} JoinSnoc(items: seq<string>, last: string)
    requires items != []
    ensures Join(items + [last], ',') == Join(items, ',') + "," + last
  {
    if |items| == 1 {
      assert (items + [last])[1..] == [last];
    } else {
      JoinSnoc(items[1..], last);
      assert (items + [last])[1..] == items[1..] + [last];
      assert items[0] + [','] + (Join(items[1..], ',') + "," + last)
             == items[0] + [','] + Join(items[1..], ',') + "," + last;
    }
  }

  lemma {:induction false} JoinIsEmpty(items: seq<string>)
    requires Clean(items)
    ensures Join(items, ',') == "" <==> items == []
  {
    if |items| > 1 { assert Join(items, ',')[0] == items[0][0]; }
  }

  lemma EntryHasSessionKey(id: seq<Byte>, norm: string -> string)
    requires norm(SESSION_KEY) == SESSION_KEY
    ensures ',' !in SessionEntry(id) && SessionEntry(id) != "" && IsSession(SessionEntry(id), norm)
  {
    EncodeIsPlain(id);
    var entry := SessionEntry(id);
    assert ';' !in entry && ',' !in entry;
    SplitPart(entry, "", ';');
    SplitPart(SESSION_KEY, Encode(id), '=');
    assert entry == SESSION_KEY + ['='] + Encode(id);
  }

  /** The printed baggage holds the other entries in order and then the session's, which is
      the only one under its key. */
  lemma {:induction false} BaggageEndsWithTheSession(existing: Option<string>, id: seq<Byte>, norm: string -> string)
    requires norm(SESSION_KEY) == SESSION_KEY
    ensures Items(Baggage(existing, id, norm)) == Kept(existing, norm) + [SessionEntry(id)]
    ensures IsSession(SessionEntry(id), norm)
    ensures forall i :: 0 <= i < |Kept(existing, norm)| ==> !IsSession(Kept(existing, norm)[i], norm)
  {
    KeptIsClean(existing, norm);
    EntryHasSessionKey(id, norm);
    var kept := Kept(existing, norm);
    var all := kept + [SessionEntry(id)];
    JoinIsEmpty(kept);
    if kept != [] { JoinSnoc(kept, SessionEntry(id)); }
    assert Baggage(existing, id, norm) == Join(all, ',');
    assert Clean(all);
    SplitOfJoin(all, ',');
    DropEmptyCleans(all);
  }

  /** An entry that is neither empty nor the session's. */
  predicate IsOther(item: string, norm: string -> string) { item != "" && KeyOf(item, norm) != SESSION_KEY }

  /** `picks` are the places of those entries, in order. */
  ghost predicate PicksOthers(items: seq<string>, norm: string -> string, picks: seq<nat>) {
    && (forall k :: 0 <= k < |picks| ==> picks[k] < |items| && IsOther(items[picks[k]], norm))
    && (forall k, l :: 0 <= k < l < |picks| ==> picks[k] < picks[l])
    && (forall i :: 0 <= i < |items| && IsOther(items[i], norm) ==> i in picks)
  }

  function Picked(items: seq<string>, picks: seq<nat>): seq<string>
    requires forall k :: 0 <= k < |picks| ==> picks[k] < |items|
  {
    seq(|picks|, k requires 0 <= k < |picks| => items[picks[k]])
  }

  lemma OthersSnoc(items: seq<string>, last: string, norm: string -> string)
    ensures Others(DropEmpty(items + [last]), norm)
            == Others(DropEmpty(items), norm) + (if IsOther(last, norm) then [last] else [])
  {
    DropEmptySnoc(items, last);
    if last == "" {
      assert DropEmpty(items) + [] == DropEmpty(items);
      assert Others(DropEmpty(items), norm) + [] == Others(DropEmpty(items), norm);
    } else {
      OthersOfSnoc(DropEmpty(items), last, norm);
    }
  }

  lemma {:induction false} DropEmptySnoc(items: seq<string>, last: string)
    ensures DropEmpty(items + [last]) == DropEmpty(items) + (if last != "" then [last] else [])
  {
    var all := items + [last];
    if items == [] {
      assert all[0] == last && all[1..] == [];
    } else {
      DropEmptySnoc(items[1..], last);
      assert all[0] == items[0] && all[1..] == items[1..] + [last];
    }
  }

  lemma {:induction false} OthersOfSnoc(items: seq<string>, last: string, norm: string -> string)
    ensures Others(items + [last], norm) == Others(items, norm) + UnlessSession(last, norm)
  {
    var all := items + [last];
    if items == [] {
      assert all[0] == last && all[1..] == [];
    } else {
      OthersOfSnoc(items[1..], last, norm);
      assert all[0] == items[0] && all[1..] == items[1..] + [last];
      var head, rest := UnlessSession(items[0], norm), Others(items[1..], norm);
      assert head + (rest + UnlessSession(last, norm)) == head + rest + UnlessSession(last, norm);
    }
  }

  lemma {:induction false} OthersArePicked(items: seq<string>, norm: string -> string) returns (picks: seq<nat>)
    ensures PicksOthers(items, norm, picks) && Others(DropEmpty(items), norm) == Picked(items, picks)
  {
    if items == [] {
      picks := [];
    } else {
      var n := |items| - 1;
      var init, last := items[..n], items[n];
      var before := OthersArePicked(init, norm);
      OthersSnoc(init, last, norm);
      assert items == init + [last];
      if IsOther(last, norm) {
        picks := before + [n];
        PickOneMore(init, last, norm, before);
      } else {
        picks := before;
        PickNoMore(init, last, norm, before);
      }
    }
  }

  lemma PickNoMore(init: seq<string>, last: string, norm: string -> string, before: seq<nat>)
    requires PicksOthers(init, norm, before) && !IsOther(last, norm)
    ensures PicksOthers(init + [last], norm, before) && Picked(init + [last], before) == Picked(init, before)
  {
    var items := init + [last];
    assert forall k :: 0 <= k < |before| ==> items[before[k]] == init[before[k]];
    assert forall i :: 0 <= i < |init| ==> items[i] == init[i];
  }

  lemma PickOneMore(init: seq<string>, last: string, norm: string -> string, before: seq<nat>)
    requires PicksOthers(init, norm, before) && IsOther(last, norm)
    ensures PicksOthers(init + [last], norm, before + [|init|])
    ensures Picked(init + [last], before + [|init|]) == Picked(init, before) + [last]
  {
    var items, picks := init + [last], before + [|init|];
    assert forall k :: 0 <= k < |before| ==> picks[k] == before[k] && items[picks[k]] == init[before[k]];
    forall i | 0 <= i < |items| && IsOther(items[i], norm)
      ensures i in picks
    {
      if i < |init| {
        assert items[i] == init[i] && i in before;
      } else {
        assert picks[|before|] == i;
      }
    }
  }

  /** Rewriting baggage keeps every entry that is neither empty nor the session's, in order
      and as it was, and puts the session's own behind them. */
  lemma {:induction false} BaggageKeepsTheOthers(items: seq<string>, id: seq<Byte>, norm: string -> string)
      returns (picks: seq<nat>)
    requires items != [] && Free(items, ',') && norm(SESSION_KEY) == SESSION_KEY
    ensures PicksOthers(items, norm, picks)
    ensures Split(Baggage(Some(Join(items, ',')), id, norm), ',') == Picked(items, picks) + [SessionEntry(id)]
  {
    var existing := Some(Join(items, ','));
    SplitOfJoin(items, ',');
    picks := OthersArePicked(items, norm);
    assert Kept(existing, norm) == Picked(items, picks);
    BaggageSplits(existing, id, norm);
  }

  lemma {:induction false} BaggageSplits(existing: Option<string>, id: seq<Byte>, norm: string -> string)
    requires norm(SESSION_KEY) == SESSION_KEY
    ensures Split(Baggage(existing, id, norm), ',') == Kept(existing, norm) + [SessionEntry(id)]
  {
    KeptIsClean(existing, norm);
    EntryHasSessionKey(id, norm);
    var kept := Kept(existing, norm);
    var all := kept + [SessionEntry(id)];
    JoinIsEmpty(kept);
    if kept != [] { JoinSnoc(kept, SessionEntry(id)); }
    assert Baggage(existing, id, norm) == Join(all, ',');
    SplitOfJoin(all, ',');
  }

  /** Every baggage is such a list; without any, the session's entry is all there is. */
  lemma BaggageOfNothing(id: seq<Byte>, norm: string -> string)
    ensures Baggage(None, id, norm) == "condukt.session.id=" + Encode(id)
  {
    assert SESSION_KEY + "=" == "condukt.session.id=";
  }

  /** Rewriting baggage with a second id gives what rewriting once with that id gives. */
  lemma {:induction false} RewritingReplaces(existing: Option<string>, first: seq<Byte>, second: seq<Byte>,
                                             norm: string -> string)
    requires norm(SESSION_KEY) == SESSION_KEY
    ensures Baggage(Some(Baggage(existing, first, norm)), second, norm) == Baggage(existing, second, norm)
  {
    BaggageEndsWithTheSession(existing, first, norm);
    KeptIsClean(existing, norm);
    var kept, entry := Kept(existing, norm), SessionEntry(first);
    OthersDropsTheLast(kept, entry, norm);
    assert Kept(Some(Baggage(existing, first, norm)), norm) == kept;
  }

  // ------------------------------------------------------------------ headers

  datatype Header = Header(name: string, value: string)

  function Headers(c: Context, id: seq<Byte>, norm: string -> string): seq<Header> {
    (if c.tracestate.Some? && c.tracestate.value != "" then [Header("tracestate", c.tracestate.value)] else [])
    + [Header("traceparent", Traceparent(c)), Header("baggage", Baggage(c.baggage, id, norm))]
  }

  /** The first header whose name matches in any letter case. */
  function HeaderValue(headers: seq<Header>, wanted: string): Option<string> {
    if headers == [] then None
    else if Lower(headers[0].name) == wanted then Some(headers[0].value)
    else HeaderValue(headers[1..], wanted)
  }

  datatype Extracted = Found(context: Context) | MissingTraceparent | InvalidTraceparent

  function FromHeaders(headers: seq<Header>): Extracted {
    match HeaderValue(headers, "traceparent")
    case None => MissingTraceparent
    case Some(traceparent) =>
      match ParseTraceparent(traceparent)
      case Invalid => InvalidTraceparent
      case Fields(traceId, spanId, flags) =>
        Found(Context(traceId, spanId, flags, HeaderValue(headers, "tracestate"), HeaderValue(headers, "baggage")))
  }

  /** The value of a header is that of the first one whose name agrees, letter case aside. */
  lemma {:induction false} HeaderValueIsTheFirst(headers: seq<Header>, wanted: string, n: nat)
    requires n < |headers| && Lower(headers[n].name) == wanted
    requires forall i :: 0 <= i < n ==> Lower(headers[i].name) != wanted
    ensures HeaderValue(headers, wanted) == Some(headers[n].value)
  {
    if n == 0 {
    } else {
      HeaderValueIsTheFirst(headers[1..], wanted, n - 1);
    }
  }

  lemma {:induction false} HeaderValueIsAbsent(headers: seq<Header>, wanted: string)
    ensures HeaderValue(headers, wanted).None? <==> forall i :: 0 <= i < |headers| ==> Lower(headers[i].name) != wanted
  {
    if headers == [] {
    } else {
      HeaderValueIsAbsent(headers[1..], wanted);
    }
  }

  /** What is printed under each name. */
  lemma {:induction false} HeadersSay(c: Context, id: seq<Byte>, norm: string -> string)
    ensures HeaderValue(Headers(c, id, norm), "traceparent")
            == Some("00" + "-" + c.traceId + "-" + c.spanId + "-" + c.flags)
    ensures HeaderValue(Headers(c, id, norm), "baggage") == Some(Baggage(c.baggage, id, norm))
    ensures HeaderValue(Headers(c, id, norm), "tracestate")
            == if c.tracestate == Some("") then None else c.tracestate
  {
    NamesAreLower();
    JoinOfFour("00", c.traceId, c.spanId, c.flags);
    var headers := Headers(c, id, norm);
    var n := |headers| - 2;
    HeaderValueIsTheFirst(headers, "traceparent", n);
    HeaderValueIsTheFirst(headers, "baggage", n + 1);
    if n == 1 {
      HeaderValueIsTheFirst(headers, "tracestate", 0);
    } else {
      HeaderValueIsAbsent(headers, "tracestate");
    }
  }

  /** Headers without a traceparent, and with one the parser refuses, are told apart. */
  lemma ExtractionFailsExactly(headers: seq<Header>)
    ensures FromHeaders(headers) == MissingTraceparent
            <==> forall i :: 0 <= i < |headers| ==> Lower(headers[i].name) != "traceparent"
    ensures FromHeaders(headers) == InvalidTraceparent
            <==> && HeaderValue(headers, "traceparent").Some?
                 && ParseTraceparent(HeaderValue(headers, "traceparent").value) == Invalid
  {
    HeaderValueIsAbsent(headers, "traceparent");
  }

  /** Reading printed headers back recovers trace id, span id, flags and trace state, and the
      baggage as rewritten for the session. */
  lemma {:induction false} HeadersRoundTrip(c: Context, id: seq<Byte>, norm: string -> string)
    requires Valid(c)
    ensures FromHeaders(Headers(c, id, norm))
            == Found(c.(tracestate := if c.tracestate == Some("") then None else c.tracestate,
                        baggage := Some(Baggage(c.baggage, id, norm))))
  {
    ParseOfPrint(c);
    var tail := [Header("traceparent", Traceparent(c)), Header("baggage", Baggage(c.baggage, id, norm))];
    NamesAreLower();
    assert tail[1..] == [Header("baggage", Baggage(c.baggage, id, norm))];
    assert HeaderValue(tail, "traceparent") == Some(Traceparent(c));
    assert HeaderValue(tail[1..], "baggage") == Some(Baggage(c.baggage, id, norm));
    assert HeaderValue(tail, "baggage") == Some(Baggage(c.baggage, id, norm));
    assert tail[1..][1..] == [];
    assert HeaderValue(tail[1..], "tracestate") == None;
    assert HeaderValue(tail, "tracestate") == None;
    var headers := Headers(c, id, norm);
    if headers != tail { assert headers[1..] == tail; }
  }

  lemma NamesAreLower()
    ensures Lower("traceparent") == "traceparent" && Lower("tracestate") == "tracestate"
    ensures Lower("baggage") == "baggage"
  {
  }
}
