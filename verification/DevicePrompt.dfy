/**
 * The device-login prompt parser (crates/codebox-agent-codex/src/parser.rs) over the bounded capture of the
 * provider's output (runtime.rs): chunks in any partition, colour sequences and line endings.
 */
module DevicePrompt {
  import opened ByteText

  const ESC: byte := 0x1b
  const BRACKET: byte := '[' as int
  const SEMICOLON: byte := ';' as int
  const FINAL: byte := 'm' as int
  const CR: byte := 13
  const LF: byte := 10
  const CODE_LENGTH := 10

  // ----- the bounded capture

  function Concat(chunks: seq<Bytes>): Bytes {
    if chunks == [] then [] else Concat(chunks[..|chunks| - 1]) + chunks[|chunks| - 1]
  }

  function Captured(stream: Bytes, limit: nat): Bytes { if |stream| <= limit then stream else stream[..limit] }

  class BoundedCapture {
    var bytes: Bytes
    var overflow: bool
    const limit: nat
    ghost var stream: Bytes

    /** The capture is the first `limit` bytes of everything pushed, and overflow says whether there was more. */
    ghost predicate Valid() reads this { bytes == Captured(stream, limit) && overflow == (|stream| > limit) }

    constructor (limit: nat)
      ensures Valid() && stream == [] && this.limit == limit
    {
      bytes, overflow, stream, this.limit := [], false, [], limit;
    }

    method Push(chunk: Bytes)
      requires Valid()
      modifies this
      ensures Valid() && stream == old(stream) + chunk
    {
      var remaining := if limit < |bytes| then 0 else limit - |bytes|;
      bytes := bytes + chunk[..if |chunk| < remaining then |chunk| else remaining];
      if |chunk| > remaining {
        overflow := true;
      }
      stream := stream + chunk;
    }
  }

  /** However a stream is cut into chunks, the capture is the same. */
  method CaptureChunks(chunks: seq<Bytes>, limit: nat) returns (bytes: Bytes, overflow: bool)
    ensures bytes == Captured(Concat(chunks), limit) && overflow == (|Concat(chunks)| > limit)
  {
    var capture := new BoundedCapture(limit);
    for i := 0 to |chunks|
      invariant capture.Valid() && capture.stream == Concat(chunks[..i])
    {
      assert chunks[..i + 1][..i] == chunks[..i];
      capture.Push(chunks[i]);
    }
    assert chunks[..|chunks|] == chunks;
    return capture.bytes, capture.overflow;
  }

  // ----- stripping colour

  predicate IsParam(b: byte) { IsDigit(b) || b == SEMICOLON }

  datatype Stripped = Text(bytes: Bytes) | Partial | Broken

  function Before(head: Bytes, r: Stripped): Stripped { if r.Text? then Text(head + r.bytes) else r }

  /** How many parameter bytes the string starts with. */
  function Lead(s: Bytes): (n: nat)
    ensures n <= |s|
  {
    if s != [] && IsParam(s[0]) then 1 + Lead(s[1..]) else 0
  }

  function Strip(s: Bytes): Stripped
    decreases |s|
  {
    if s == [] then Text([])
    else if s[0] != ESC then Before([s[0]], Strip(s[1..]))
    else if |s| == 1 then Partial
    else if s[1] != BRACKET then Broken
    else
      var n := Lead(s[2..]);
      if n + 2 == |s| then Partial else if s[n + 2] != FINAL then Broken else Strip(s[n + 3..])
  }

  lemma BeforeTwice(a: Bytes, b: Bytes, r: Stripped)
    ensures Before(a, Before(b, r)) == Before(a + b, r)
  {
    if r.Text? {
      assert a + (b + r.bytes) == a + b + r.bytes;
    }
  }

  lemma BeforeStops(a: Bytes, r: Stripped)
    ensures Before(a, Partial) == Partial && Before(a, Broken) == Broken && Before(a, Text([])) == Text(a)
    ensures Before([], r) == r
  {
    assert a + [] == a;
    assert r.Text? ==> [] + r.bytes == r.bytes;
  }

  /** The scan over the parameters of one sequence. */
  method SkipParams(s: Bytes, from: nat) returns (end: nat)
    requires from <= |s|
    ensures end == from + Lead(s[from..])
  {
    end := from;
    while end < |s| && IsParam(s[end])
      invariant from <= end <= |s|
      invariant Lead(s[from..]) == end - from + Lead(s[end..])
    {
      assert s[end..][1..] == s[end + 1..];
      end := end + 1;
    }
  }

  /** One turn of the loop, as seen by the specification. */
  lemma StripFrom(s: Bytes, index: nat)
    requires index < |s|
    ensures s[index] != ESC ==> Strip(s[index..]) == Before([s[index]], Strip(s[index + 1..]))
    ensures s[index] == ESC && index + 1 == |s| ==> Strip(s[index..]) == Partial
    ensures s[index] == ESC && index + 1 < |s| ==>
              if s[index + 1] != BRACKET then Strip(s[index..]) == Broken
              else
                var end := index + 2 + Lead(s[index + 2..]);
                Strip(s[index..]) ==
                  if end == |s| then Partial else if s[end] != FINAL then Broken else Strip(s[end + 1..])
  {
    var rest := s[index..];
    assert rest[1..] == s[index + 1..];
    if index + 1 < |s| {
      assert rest[2..] == s[index + 2..];
      var end := index + 2 + Lead(s[index + 2..]);
      if end < |s| {
        assert rest[end - index + 1..] == s[end + 1..];
      }
    }
  }

  /** The index loop of the source computes `Strip`. */
  method StripColour(s: Bytes) returns (r: Stripped)
    ensures r == Strip(s)
  {
    var stripped: Bytes := [];
    var index := 0;
    assert s[0..] == s && Strip([]) == Text([]);
    BeforeStops(stripped, Strip(s));
    hide Strip, Before, Lead;
    while index < |s|
      invariant index <= |s|
      invariant Strip(s) == Before(stripped, Strip(s[index..]))
    {
      StripFrom(s, index);
      BeforeStops(stripped, Partial);
      if s[index] != ESC {
        BeforeTwice(stripped, [s[index]], Strip(s[index + 1..]));
        stripped := stripped + [s[index]];
        index := index + 1;
        continue;
      }
      if index + 1 >= |s| {
        return Partial;
      }
      if s[index + 1] != BRACKET {
        return Broken;
      }
      var end := SkipParams(s, index + 2);
      if end >= |s| {
        return Partial;
      }
      if s[end] != FINAL {
        return Broken;
      }
      index := end + 1;
    }
    assert s[index..] == [];
    BeforeStops(stripped, Partial);
    r := Text(stripped);
  }

  // ----- colouring, the inverse

  datatype Token = Plain(b: byte) | Sgr(params: Bytes)

  predicate WellFormed(t: Token) {
    match t
    case Plain(b) => b != ESC
    case Sgr(params) => forall i :: 0 <= i < |params| ==> IsParam(params[i])
  }

  predicate AllWellFormed(ts: seq<Token>) { forall i :: 0 <= i < |ts| ==> WellFormed(ts[i]) }

  function Written(t: Token): Bytes {
    match t
    case Plain(b) => [b]
    case Sgr(params) => [ESC, BRACKET] + params + [FINAL]
  }

  function Render(ts: seq<Token>): Bytes { if ts == [] then [] else Written(ts[0]) + Render(ts[1..]) }

  function PlainOf(ts: seq<Token>): Bytes {
    if ts == [] then [] else (if ts[0].Plain? then [ts[0].b] else []) + PlainOf(ts[1..])
  }

  lemma {:induction false} LeadOfParams(params: Bytes, rest: Bytes)
    requires forall i :: 0 <= i < |params| ==> IsParam(params[i])
    requires rest == [] || !IsParam(rest[0])
    ensures Lead(params + rest) == |params|
  {
    if params != [] {
      assert (params + rest)[1..] == params[1..] + rest;
      LeadOfParams(params[1..], rest);
    }
  }

  /** What one token in front does to the result. */
  lemma StripWritten(t: Token, rest: Bytes)
    requires WellFormed(t)
    ensures Strip(Written(t) + rest) == if t.Plain? then Before([t.b], Strip(rest)) else Strip(rest)
  {
    var s := Written(t) + rest;
    if t.Plain? {
      assert s[1..] == rest;
    } else {
      assert s[2..] == t.params + ([FINAL] + rest);
      LeadOfParams(t.params, [FINAL] + rest);
      assert s[|t.params| + 3..] == rest;
    }
  }

  /** Stripping undoes any insertion of colour sequences. */
  lemma {:induction false} StripUndoesColour(ts: seq<Token>)
    requires AllWellFormed(ts)
    ensures Strip(Render(ts)) == Text(PlainOf(ts))
  {
    if ts != [] {
      StripWritten(ts[0], Render(ts[1..]));
      StripUndoesColour(ts[1..]);
    }
  }

  lemma {:induction false} LeadIsParams(s: Bytes)
    ensures forall i :: 0 <= i < Lead(s) ==> IsParam(s[i])
  {
    if s != [] && IsParam(s[0]) {
      LeadIsParams(s[1..]);
      forall i | 0 <= i < Lead(s) ensures IsParam(s[i]) {
        assert i > 0 ==> s[i] == s[1..][i - 1];
      }
    }
  }

  lemma TokenInFront(t: Token, ts: seq<Token>)
    requires WellFormed(t) && AllWellFormed(ts)
    ensures AllWellFormed([t] + ts) && Render([t] + ts) == Written(t) + Render(ts)
    ensures PlainOf([t] + ts) == (if t.Plain? then [t.b] else []) + PlainOf(ts)
  {
    assert ([t] + ts)[1..] == ts;
  }

  /** And whatever it accepts is such an insertion. */
  lemma {:induction false} StrippedIsColoured(s: Bytes) returns (ts: seq<Token>)
    requires Strip(s).Text?
    ensures AllWellFormed(ts) && Render(ts) == s && PlainOf(ts) == Strip(s).bytes
    decreases |s|
  {
    if s == [] {
      return [];
    }
    hide AllWellFormed, Render, PlainOf;
    if s[0] != ESC {
      var rest := StrippedIsColoured(s[1..]);
      TokenInFront(Plain(s[0]), rest);
      ts := [Plain(s[0])] + rest;
    } else {
      var n := Lead(s[2..]);
      var params := s[2..][..n];
      LeadIsParams(s[2..]);
      assert s == [ESC, BRACKET] + params + [FINAL] + s[n + 3..];
      var rest := StrippedIsColoured(s[n + 3..]);
      TokenInFront(Sgr(params), rest);
      ts := [Sgr(params)] + rest;
    }
  }

  lemma {:induction false} PrefixStrips(ts: seq<Token>, n: nat)
    requires AllWellFormed(ts) && n <= |Render(ts)|
    ensures var r := Strip(Render(ts)[..n]); r.Partial? || (r.Text? && r.bytes <= PlainOf(ts))
  {
    if n > 0 {
      var w, rest := Written(ts[0]), Render(ts[1..]);
      if n < |w| {
        assert Render(ts)[..n] == w[..n];
        CutSequence(ts[0].params, n);
      } else {
        PrefixStrips(ts[1..], n - |w|);
        StripWritten(ts[0], rest[..n - |w|]);
        hide Strip, Render, Written;
        assert (w + rest)[..n] == w + rest[..n - |w|];
      }
    }
  }

  /** A colour sequence cut anywhere inside is partial. */
  lemma CutSequence(params: Bytes, n: nat)
    requires 0 < n < |params| + 3 && forall i :: 0 <= i < |params| ==> IsParam(params[i])
    ensures Strip(([ESC, BRACKET] + params + [FINAL])[..n]) == Partial
  {
    var s := ([ESC, BRACKET] + params + [FINAL])[..n];
    if n >= 2 {
      assert s[2..] == params[..n - 2] + [];
      LeadOfParams(params[..n - 2], []);
    }
  }

  // ----- line endings and encoding

  /** Every CR LF becomes LF, from the left. */
  function Unix(t: Bytes): Bytes {
    if t == [] then []
    else if |t| >= 2 && t[0] == CR && t[1] == LF then [LF] + Unix(t[2..])
    else [t[0]] + Unix(t[1..])
  }

  predicate Printable(b: byte) { (32 <= b && b != 127) || b == LF }
  predicate Clean(t: Bytes) { forall i :: 0 <= i < |t| ==> Printable(t[i]) }
  predicate Ascii(t: Bytes) { forall i :: 0 <= i < |t| ==> t[i] < 128 }

  predicate Within(s: Bytes, i: nat, low: byte, high: byte) { i < |s| && low <= s[i] <= high }
  predicate Tail(s: Bytes, i: nat) { Within(s, i, 0x80, 0xBF) }

  /** The length of the well-formed character at the front, or zero (table 3-7 of the Unicode standard). */
  function CharLength(s: Bytes): (n: nat)
    requires s != []
    ensures n <= |s|
  {
    var b := s[0];
    if b < 0x80 then 1
    else if 0xC2 <= b <= 0xDF && Tail(s, 1) then 2
    else if b == 0xE0 && Within(s, 1, 0xA0, 0xBF) && Tail(s, 2) then 3
    else if (0xE1 <= b <= 0xEC || 0xEE <= b <= 0xEF) && Tail(s, 1) && Tail(s, 2) then 3
    else if b == 0xED && Within(s, 1, 0x80, 0x9F) && Tail(s, 2) then 3
    else if b == 0xF0 && Within(s, 1, 0x90, 0xBF) && Tail(s, 2) && Tail(s, 3) then 4
    else if 0xF1 <= b <= 0xF3 && Tail(s, 1) && Tail(s, 2) && Tail(s, 3) then 4
    else if b == 0xF4 && Within(s, 1, 0x80, 0x8F) && Tail(s, 2) && Tail(s, 3) then 4
    else 0
  }

  predicate Utf8(s: Bytes)
    decreases |s|
  {
    s == [] || (CharLength(s) > 0 && Utf8(s[CharLength(s)..]))
  }

  predicate CharBoundary(s: Bytes, i: nat)
    requires i <= |s|
  {
    i == |s| || !Tail(s, i)
  }

  lemma {:induction false} AsciiIsUtf8(s: Bytes)
    requires Ascii(s)
    ensures Utf8(s)
  {
    if s != [] {
      AsciiIsUtf8(s[1..]);
    }
  }

  /** Cutting anywhere but inside a CR LF, the normal form of the front is a front of the normal form. */
  lemma {:induction false} UnixPrefix(t: Bytes, k: nat)
    requires k <= |t| && (k == 0 || t[k - 1] != CR)
    ensures Unix(t[..k]) <= Unix(t)
    decreases |t|
  {
    if k > 0 {
      var n := if |t| >= 2 && t[0] == CR && t[1] == LF then 2 else 1;
      UnixPrefix(t[n..], k - n);
      assert t[..k][n..] == t[n..][..k - n];
    }
  }

  /** A CR at the end stays. */
  lemma {:induction false} UnixEndsCr(t: Bytes)
    requires t != [] && t[|t| - 1] == CR
    ensures !Clean(Unix(t))
    decreases |t|
  {
    if |t| == 1 {
      assert Unix(t) == [CR] + Unix(t[1..]);
      assert Unix(t)[0] == CR && !Printable(CR);
    } else {
      var n := if t[0] == CR && t[1] == LF then 2 else 1;
      UnixEndsCr(t[n..]);
      var i :| 0 <= i < |Unix(t[n..])| && !Printable(Unix(t[n..])[i]);
      assert Unix(t)[i + 1] == Unix(t[n..])[i];
    }
  }

  lemma {:induction false} UnixKeepsAscii(t: Bytes)
    requires Ascii(Unix(t))
    ensures Ascii(t)
    decreases |t|
  {
    if t != [] {
      var n := if |t| >= 2 && t[0] == CR && t[1] == LF then 2 else 1;
      assert Unix(t)[1..] == Unix(t[n..]);
      UnixKeepsAscii(t[n..]);
      assert t == t[..n] + t[n..];
      assert Unix(t)[0] < 128;
    }
  }

  // ----- the prompt

  /** The pinned prompt: the text before and after the device code. */
  datatype Prompt = Prompt(before: Bytes, after: Bytes) {
    predicate Valid() { Ascii(before) && Ascii(after) && Clean(before) && Clean(after) }
    function Length(): nat { |before| + CODE_LENGTH + |after| }
    function With(code: Bytes): Bytes { before + code + after }
  }

  predicate CodeByte(b: byte) { 'A' as int <= b <= 'Z' as int || IsDigit(b) }

  predicate ValidCode(code: Bytes) {
    && |code| == CODE_LENGTH && code[4] == DASH
    && forall i :: 0 <= i < CODE_LENGTH && i != 4 ==> CodeByte(code[i])
  }

  /** `Panics` stands for slicing a string off a character boundary. */
  datatype Parsed = Code(code: Bytes) | Incomplete | LimitExceeded | Invalid | Panics

  function Match(p: Prompt, u: Bytes): Parsed
    requires |u| == p.Length()
  {
    var start, end := |p.before|, |p.before| + CODE_LENGTH;
    if !CharBoundary(u, start) then Panics
    else if u[..start] != p.before then Invalid
    else if !CharBoundary(u, end) then Panics
    else if u[end..] != p.after then Invalid
    else if ValidCode(u[start..end]) then Code(u[start..end]) else Invalid
  }

  function ParseText(p: Prompt, t: Bytes): Parsed {
    if !Utf8(t) || !Clean(Unix(t)) then Invalid
    else if |Unix(t)| < p.Length() then Incomplete
    else if |Unix(t)| > p.Length() then Invalid
    else Match(p, Unix(t))
  }

  function Parse(p: Prompt, s: Bytes, overflow: bool): Parsed {
    if overflow then LimitExceeded
    else match Strip(s)
      case Text(t) => ParseText(p, t)
      case Partial => Incomplete
      case Broken => Invalid
  }

  method ParseDevicePrompt(p: Prompt, s: Bytes, overflow: bool) returns (r: Parsed)
    ensures r == Parse(p, s, overflow)
  {
    if overflow {
      return LimitExceeded;
    }
    var stripped := StripColour(s);
    match stripped {
      case Text(t) => r := ParseText(p, t);
      case Partial => r := Incomplete;
      case Broken => r := Invalid;
    }
  }

  lemma PromptIsPlain(p: Prompt, code: Bytes)
    requires p.Valid() && ValidCode(code)
    ensures Ascii(p.With(code)) && Clean(p.With(code)) && |p.With(code)| == p.Length()
  {
  }

  lemma MatchesOnly(p: Prompt, u: Bytes, code: Bytes)
    requires p.Valid() && |u| == p.Length()
    ensures Match(p, u) == Code(code) <==> ValidCode(code) && u == p.With(code)
  {
    var start, end := |p.before|, |p.before| + CODE_LENGTH;
    if ValidCode(code) && u == p.With(code) {
      PromptIsPlain(p, code);
      assert u[..start] == p.before && u[start..end] == code && u[end..] == p.after;
    }
    assert u == u[..start] + u[start..end] + u[end..];
  }

  /** A code is returned exactly for a colouring of the prompt with that code, lines ended by LF or CR LF. */
  lemma ParsesExactly(p: Prompt, s: Bytes, code: Bytes)
    requires p.Valid()
    ensures Parse(p, s, false) == Code(code) <==>
            ValidCode(code) && exists ts :: AllWellFormed(ts) && Render(ts) == s && Unix(PlainOf(ts)) == p.With(code)
  {
    if Parse(p, s, false) == Code(code) {
      var ts := StrippedIsColoured(s);
      MatchesOnly(p, Unix(PlainOf(ts)), code);
    }
    if ValidCode(code) && exists ts :: AllWellFormed(ts) && Render(ts) == s && Unix(PlainOf(ts)) == p.With(code) {
      var ts :| AllWellFormed(ts) && Render(ts) == s && Unix(PlainOf(ts)) == p.With(code);
      StripUndoesColour(ts);
      PromptIsPlain(p, code);
      UnixKeepsAscii(PlainOf(ts));
      AsciiIsUtf8(PlainOf(ts));
      MatchesOnly(p, Unix(PlainOf(ts)), code);
    }
  }

  /** Every front of the prompt's text is undecided or gives the code, unless it ends in a CR. */
  lemma TextPrefix(p: Prompt, raw: Bytes, t: Bytes, code: Bytes)
    requires p.Valid() && ValidCode(code) && Unix(raw) == p.With(code) && t <= raw
    ensures if t != [] && t[|t| - 1] == CR then ParseText(p, t) == Invalid
            else ParseText(p, t) == if |Unix(t)| == p.Length() then Code(code) else Incomplete
  {
    PromptIsPlain(p, code);
    UnixKeepsAscii(raw);
    AsciiIsUtf8(t);
    if t != [] && t[|t| - 1] == CR {
      UnixEndsCr(t);
    } else {
      assert t == raw[..|t|];
      UnixPrefix(raw, |t|);
      if |Unix(t)| == p.Length() {
        MatchesOnly(p, Unix(t), code);
      }
    }
  }

  /**
   * While a coloured prompt arrives, every capture so far is undecided or gives the one final code; the only
   * exception is a capture that ends, colour aside, between CR and LF, and that one is rejected.
   */
  lemma ChunkedPrompt(p: Prompt, ts: seq<Token>, n: nat, code: Bytes)
    requires p.Valid() && ValidCode(code) && AllWellFormed(ts) && Unix(PlainOf(ts)) == p.With(code) && n <= |Render(ts)|
    ensures var s := Render(ts)[..n];
            var r := Parse(p, s, false);
            && (r == Incomplete || r == Code(code) || r == Invalid)
            && (r == Invalid <==> Strip(s).Text? && Strip(s).bytes != [] && Strip(s).bytes[|Strip(s).bytes| - 1] == CR)
            && (n == |Render(ts)| ==> r == Code(code))
  {
    var s := Render(ts)[..n];
    PrefixStrips(ts, n);
    if Strip(s).Text? {
      TextPrefix(p, PlainOf(ts), Strip(s).bytes, code);
    }
    if n == |Render(ts)| {
      assert s == Render(ts);
      ParsesExactly(p, s, code);
    }
  }

  /** Without CR no front of the prompt is ever rejected, however it was cut into chunks within the limit. */
  lemma ChunkedPromptNeverFails(p: Prompt, ts: seq<Token>, chunks: seq<Bytes>, limit: nat, code: Bytes)
    requires p.Valid() && ValidCode(code) && AllWellFormed(ts) && PlainOf(ts) == p.With(code)
    requires Concat(chunks) <= Render(ts) && |Render(ts)| <= limit
    ensures var r := Parse(p, Captured(Concat(chunks), limit), |Concat(chunks)| > limit);
            && (r == Incomplete || r == Code(code))
            && (Concat(chunks) == Render(ts) ==> r == Code(code))
  {
    PromptIsPlain(p, code);
    CrFreeIsUnix(PlainOf(ts));
    var n := |Concat(chunks)|;
    assert Render(ts)[..n] == Concat(chunks);
    ChunkedPrompt(p, ts, n, code);
    PrefixStrips(ts, n);
  }

  function Uncoloured(t: Bytes): seq<Token> { if t == [] then [] else [Plain(t[0])] + Uncoloured(t[1..]) }

  lemma {:induction false} UncolouredIsText(t: Bytes)
    requires forall i :: 0 <= i < |t| ==> t[i] != ESC
    ensures AllWellFormed(Uncoloured(t)) && Render(Uncoloured(t)) == t && PlainOf(Uncoloured(t)) == t
  {
    if t != [] {
      UncolouredIsText(t[1..]);
      TokenInFront(Plain(t[0]), Uncoloured(t[1..]));
    }
  }

  /** Text with one line ended by CR LF, cut there. */
  lemma CutText(u: Bytes, i: nat) returns (raw: Bytes)
    requires Clean(u) && i < |u| && u[i] == LF
    ensures |raw| == |u| + 1 && raw[i] == CR && Unix(raw) == u && forall k :: 0 <= k < |raw| ==> raw[k] != ESC
  {
    hide Unix;
    raw := u[..i] + [CR, LF] + u[i + 1..];
    LineEndIsUnix(u[..i], u[i + 1..]);
    assert u == u[..i] + [LF] + u[i + 1..];
  }

  /** The exception occurs for every prompt: end any one of its lines by CR LF and cut there. */
  lemma CutInsideLineEnd(p: Prompt, code: Bytes, i: nat) returns (ts: seq<Token>, n: nat)
    requires p.Valid() && ValidCode(code) && i < p.Length() && p.With(code)[i] == LF
    ensures AllWellFormed(ts) && Unix(PlainOf(ts)) == p.With(code) && n < |Render(ts)|
    ensures Parse(p, Render(ts)[..n], false) == Invalid && Parse(p, Render(ts), false) == Code(code)
  {
    PromptIsPlain(p, code);
    hide Strip, Unix, Render, PlainOf, Uncoloured, Parse, AllWellFormed, ValidCode, Clean, Ascii;
    var raw := CutText(p.With(code), i);
    UncolouredIsText(raw);
    ts, n := Uncoloured(raw), i + 1;
    PlainStrips(raw[..n]);
    ChunkedPrompt(p, ts, n, code);
    ChunkedPrompt(p, ts, |raw|, code);
    assert raw[..|raw|] == raw;
  }

  lemma {:induction false} LineEndIsUnix(a: Bytes, b: Bytes)
    requires Clean(a) && Clean(b)
    ensures Unix(a + [CR, LF] + b) == a + [LF] + b
  {
    var raw := a + [CR, LF] + b;
    if a == [] {
      assert raw[2..] == b;
      CrFreeIsUnix(b);
    } else {
      LineEndIsUnix(a[1..], b);
      assert raw[1..] == a[1..] + [CR, LF] + b;
    }
  }

  lemma {:induction false} CrFreeIsUnix(t: Bytes)
    requires Clean(t)
    ensures Unix(t) == t
  {
    if t != [] {
      CrFreeIsUnix(t[1..]);
    }
  }

  // ----- slicing off a character boundary

  /** ASCII output is never sliced off a boundary. */
  lemma AsciiNeverPanics(p: Prompt, s: Bytes, overflow: bool)
    requires Ascii(s)
    ensures Parse(p, s, overflow) != Panics
  {
    if Strip(s).Text? {
      var ts := StrippedIsColoured(s);
      PlainIsPart(ts);
      UnixIsPart(PlainOf(ts));
    }
  }

  lemma {:induction false} PlainIsPart(ts: seq<Token>)
    requires Ascii(Render(ts))
    ensures Ascii(PlainOf(ts))
  {
    if ts != [] {
      var w, rest := Written(ts[0]), Render(ts[1..]);
      assert forall i :: 0 <= i < |w| ==> Render(ts)[i] == w[i];
      assert forall i :: 0 <= i < |rest| ==> Render(ts)[|w| + i] == rest[i];
      PlainIsPart(ts[1..]);
    }
  }

  lemma {:induction false} UnixIsPart(t: Bytes)
    requires Ascii(t)
    ensures Ascii(Unix(t))
    decreases |t|
  {
    if t != [] {
      UnixIsPart(t[if |t| >= 2 && t[0] == CR && t[1] == LF then 2 else 1..]);
    }
  }

  function Letters(n: nat): (s: Bytes)
    ensures |s| == n && forall i :: 0 <= i < n ==> s[i] == 'a' as int
  {
    if n == 0 then [] else Letters(n - 1) + ['a' as int]
  }

  lemma {:induction false} PlainStrips(s: Bytes)
    requires forall i :: 0 <= i < |s| ==> s[i] != ESC
    ensures Strip(s) == Text(s)
  {
    if s != [] {
      PlainStrips(s[1..]);
    }
  }

  lemma {:induction false} Utf8After(a: Bytes, b: Bytes)
    requires Ascii(a) && Utf8(b)
    ensures Utf8(a + b)
  {
    if a == [] {
      assert a + b == b;
    } else {
      Utf8After(a[1..], b);
      assert (a + b)[1..] == a[1..] + b;
    }
  }

  /** But output of the prompt's length with a two-byte character across the code's start is. */
  lemma OffBoundaryPanics(p: Prompt)
    requires |p.before| > 0
    ensures Parse(p, Letters(|p.before| - 1) + [0xC3, 0xA9] + Letters(|p.after| + 9), false) == Panics
  {
    var a, b := Letters(|p.before| - 1), Letters(|p.after| + 9);
    TwoByteText(a, b);
    hide Utf8, Letters;
    var s := a + [0xC3, 0xA9] + b;
    assert s[|p.before|] == 0xA9;
    SlicedInside(p, s);
  }

  lemma SlicedInside(p: Prompt, s: Bytes)
    requires Utf8(s) && Clean(s) && |s| == p.Length() && Tail(s, |p.before|)
    ensures Parse(p, s, false) == Panics
  {
    PlainStrips(s);
    CrFreeIsUnix(s);
    hide Utf8, Strip, Unix;
  }

  lemma TwoByteText(a: Bytes, b: Bytes)
    requires Ascii(a) && Ascii(b)
    ensures Utf8(a + [0xC3, 0xA9] + b)
  {
    var c: Bytes := [0xC3, 0xA9] + b;
    AsciiIsUtf8(b);
    assert CharLength(c) == 2 && c[2..] == b;
    assert Utf8(c);
    Utf8After(a, c);
    hide Utf8;
    assert a + [0xC3, 0xA9] + b == a + c;
  }

  /** Cutting well-formed text leaves well-formed text exactly at a character boundary. */
  lemma {:induction false} BoundaryIff(u: Bytes, i: nat)
    requires Utf8(u) && i <= |u|
    ensures CharBoundary(u, i) <==> Utf8(u[..i])
    decreases |u|
  {
    if i > 0 {
      var n := CharLength(u);
      if i < n {
        assert CharLength(u[..i]) == 0;
      } else {
        assert CharLength(u[..i]) == n;
        assert Utf8(u[..i]) <==> Utf8(u[..i][n..]);
        BoundaryIff(u[n..], i - n);
        CutTwice(u, n, i);
      }
    }
  }

  lemma CutTwice(u: Bytes, n: nat, i: nat)
    requires n <= i <= |u|
    ensures u[..i][n..] == u[n..][..i - n]
  {
  }

  lemma {:induction false} UnixSkips(t: Bytes, n: nat)
    requires n <= |t| && forall i :: 0 <= i < n ==> t[i] != CR
    ensures Unix(t) == t[..n] + Unix(t[n..])
    decreases n
  {
    if n > 0 {
      UnixSkips(t[1..], n - 1);
      assert t[..n] == [t[0]] + t[1..][..n - 1] && t[1..][n - 1..] == t[n..];
    }
  }

  lemma {:induction false} UnixKeepsUtf8(t: Bytes)
    requires Utf8(t)
    ensures Utf8(Unix(t))
    decreases |t|
  {
    if t != [] {
      var n := CharLength(t);
      UnixKeepsUtf8(t[n..]);
      if n == 1 && |t| >= 2 && t[0] == CR && t[1] == LF {
        assert CharLength(t[1..]) == 1 && t[1..][1..] == t[2..];
        UnixKeepsUtf8(t[2..]);
        Utf8After([LF], Unix(t[2..]));
      } else if n == 1 {
        Utf8After([t[0]], Unix(t[1..]));
      } else {
        UnixSkips(t, n);
        var u := Unix(t);
        assert u[..n] == t[..n] && u[n..] == Unix(t[n..]);
        assert CharLength(u) == n;
      }
    }
  }

  /**
   * When the parser panics, in terms of the text: it is as long as the prompt, and cutting it where
   * the code starts splits a character, or its beginning matches and cutting it where the code ends does.
   */
  lemma PanicsExactly(p: Prompt, s: Bytes)
    ensures Parse(p, s, false) == Panics <==>
            && Strip(s).Text? && Utf8(Strip(s).bytes) && Clean(Unix(Strip(s).bytes))
            && |Unix(Strip(s).bytes)| == p.Length()
            && var u := Unix(Strip(s).bytes);
               || !Utf8(u[..|p.before|])
               || (p.before <= u && !Utf8(u[..|p.before| + CODE_LENGTH]))
  {
    if Strip(s).Text? && Utf8(Strip(s).bytes) && |Unix(Strip(s).bytes)| == p.Length() {
      var u := Unix(Strip(s).bytes);
      UnixKeepsUtf8(Strip(s).bytes);
      BoundaryIff(u, |p.before|);
      BoundaryIff(u, |p.before| + CODE_LENGTH);
      assert u[..|p.before|] == p.before <==> p.before <= u;
      hide Utf8, Unix, Strip, Clean;
    }
  }
}
