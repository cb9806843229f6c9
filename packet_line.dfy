/**
  The line grammar of the feature extractor's text output and the packet
  record parsed from one line (`PacketData` in preprocessors/common.py).

  A line is matched, anchored at its start only, against
    (\S+)\s(\S+)\s(\S+)\s(\S+)\s(\S+)\s({.+})
  giving source address, destination address, source port, destination
  port, protocol and a JSON object whose `ts`, `ip_len` and `tcp_flags`
  fields are read. JSON decoding itself is a parameter of the model.
 */
module PacketLine {
  import opened Wrappers
  import opened FeatureKeys
  import opened Errors
  import opened Features

  /** Python's `\s` on a str pattern: the Unicode whitespace characters. */
  predicate IsSpace(c: char)
  {
    var n := c as int;
    || n == 0x20
    || 0x09 <= n <= 0x0D
    || 0x1C <= n <= 0x1F
    || n == 0x85
    || n == 0xA0
    || n == 0x1680
    || 0x2000 <= n <= 0x200A
    || n == 0x2028
    || n == 0x2029
    || n == 0x202F
    || n == 0x205F
    || n == 0x3000
  }

  /** A string `\S+` can match: non-empty, without whitespace. */
  predicate IsToken(t: string)
  {
    |t| > 0 && forall k :: 0 <= k < |t| ==> !IsSpace(t[k])
  }

  /** The groups of a matching line. */
  datatype LineMatch = LineMatch(
    srcIp: string,
    dstIp: string,
    srcPort: string,
    dstPort: string,
    proto: string,
    features: string)

  /** Length of the longest whitespace-free prefix of s. */
  function RunLength(s: string): (n: nat)
    ensures n <= |s|
    ensures forall k :: 0 <= k < n ==> !IsSpace(s[k])
    ensures n == |s| || IsSpace(s[n])
  {
    if s == [] || IsSpace(s[0]) then 0 else 1 + RunLength(s[1..])
  }

  /**
    `\S+\s` at the start of s: the greedy `\S+` can only stop right before a
    whitespace character, so the token is the longest whitespace-free prefix.
    Yields the token and what follows its one whitespace character.
   */
  function Token(s: string): Option<(string, string)>
  {
    var n := RunLength(s);
    if n == 0 || n == |s| then None else Some((s[..n], s[n + 1..]))
  }

  /** Index of the first newline in s, or |s|: where `.` stops matching. */
  function LineEnd(s: string): (e: nat)
    ensures e <= |s|
    ensures forall k :: 0 <= k < e ==> s[k] != '\n'
    ensures e == |s| || s[e] == '\n'
  {
    if s == [] || s[0] == '\n' then 0 else 1 + LineEnd(s[1..])
  }

  /** The last index j with lo <= j < hi and s[j] == '}', if there is one. */
  function LastBrace(s: string, lo: nat, hi: nat): (r: Option<nat>)
    requires hi <= |s|
    ensures r.Some? ==> lo <= r.value < hi && s[r.value] == '}'
    ensures r.Some? ==> forall k :: r.value < k < hi ==> s[k] != '}'
    ensures r.None? ==> forall k :: lo <= k < hi ==> s[k] != '}'
    decreases hi
  {
    if hi <= lo then None
    else if s[hi - 1] == '}' then Some(hi - 1)
    else LastBrace(s, lo, hi - 1)
  }

  /**
    `{.+}` at the start of s: `.+` is greedy and does not cross a newline, so
    the block ends at the last `}` of the first line that leaves at least one
    character between the braces.
   */
  function Block(s: string): Option<string>
  {
    if s == [] || s[0] != '{' then None
    else match LastBrace(s, 2, LineEnd(s))
      case None => None
      case Some(j) => Some(s[..j + 1])
  }

  /** n repetitions of `\S+\s` at the start of s: the tokens and what follows them. */
  function Tokens(s: string, n: nat): (r: Option<(seq<string>, string)>)
    ensures r.Some? ==> |r.value.0| == n
  {
    if n == 0 then Some(([], s))
    else match Token(s)
      case None => None
      case Some((t, r)) =>
        match Tokens(r, n - 1)
        case None => None
        case Some((ts, tail)) => Some(([t] + ts, tail))
  }

  /** `input_pattern.match(s)`: the groups, or None when the line does not match. */
  function MatchLine(s: string): Option<LineMatch>
  {
    match Tokens(s, 5)
    case None => None
    case Some((ts, r5)) =>
      match Block(r5)
      case None => None
      case Some(features) => Some(LineMatch(ts[0], ts[1], ts[2], ts[3], ts[4], features))
  }

  /** A `{.+}` block: braces around at least one character, no newline inside. */
  predicate IsBlock(b: string)
  {
    && |b| >= 3
    && b[0] == '{'
    && b[|b| - 1] == '}'
    && forall k :: 0 <= k < |b| ==> b[k] != '\n'
  }

  /** No `}` before the first newline of rest, so a greedy `.+}` cannot reach into it. */
  predicate NoBraceOnFirstLine(rest: string)
  {
    forall k :: 0 <= k < LineEnd(rest) ==> rest[k] != '}'
  }

  /** Tokens each followed by its separator, then the tail. */
  function Joined(ts: seq<string>, seps: seq<char>, tail: string): string
    requires |seps| == |ts|
  {
    if ts == [] then tail else ts[0] + ([seps[0]] + Joined(ts[1..], seps[1..], tail))
  }

  /** The five address, port and protocol groups of a match, in pattern order. */
  function Leading(m: LineMatch): seq<string>
  {
    [m.srcIp, m.dstIp, m.srcPort, m.dstPort, m.proto]
  }

  /** A line laid out from the groups, the five separators and the unmatched rest. */
  function Layout(m: LineMatch, seps: seq<char>, rest: string): string
    requires |seps| == 5
  {
    Joined(Leading(m), seps, m.features + rest)
  }

  /** Tokens and separators `\S+\s` accepts. */
  predicate TokensAndSeps(ts: seq<string>, seps: seq<char>)
  {
    && |seps| == |ts|
    && (forall k :: 0 <= k < |ts| ==> IsToken(ts[k]))
    && (forall k :: 0 <= k < |seps| ==> IsSpace(seps[k]))
  }

  /** The conditions under which the pattern matches a laid-out line with these groups. */
  predicate WellFormed(m: LineMatch, seps: seq<char>, rest: string)
  {
    && TokensAndSeps(Leading(m), seps)
    && IsBlock(m.features)
    && NoBraceOnFirstLine(rest)
  }

  lemma {:induction false} RunLengthOfToken(t: string, c: char, rest: string)
    requires IsToken(t) && IsSpace(c)
    ensures RunLength(t + ([c] + rest)) == |t|
    decreases |t|
  {
    var s := t + ([c] + rest);
    if |t| > 1 {
      assert s[1..] == t[1..] + ([c] + rest);
      RunLengthOfToken(t[1..], c, rest);
    } else {
      assert s[1..] == [c] + rest;
    }
  }

  /** `\S+\s` reads exactly a token followed by one whitespace character. */
  lemma TokenOfLayout(t: string, c: char, rest: string)
    requires IsToken(t) && IsSpace(c)
    ensures Token(t + ([c] + rest)) == Some((t, rest))
  {
    var s := t + ([c] + rest);
    RunLengthOfToken(t, c, rest);
    assert s[..|t|] == t;
    assert s[|t| + 1..] == rest;
  }

  lemma {:induction false} TokensOfJoined(ts: seq<string>, seps: seq<char>, tail: string)
    requires TokensAndSeps(ts, seps)
    ensures Tokens(Joined(ts, seps, tail), |ts|) == Some((ts, tail))
    decreases |ts|
  {
    if ts != [] {
      TokenOfLayout(ts[0], seps[0], Joined(ts[1..], seps[1..], tail));
      TokensOfJoined(ts[1..], seps[1..], tail);
      assert [ts[0]] + ts[1..] == ts;
    }
  }

  lemma {:induction false} LineEndOfPrefix(b: string, rest: string)
    requires forall k :: 0 <= k < |b| ==> b[k] != '\n'
    ensures LineEnd(b + rest) == |b| + LineEnd(rest)
    decreases |b|
  {
    if b != [] {
      var s := b + rest;
      assert s[0] == b[0] && b[0] != '\n';
      assert s[1..] == b[1..] + rest;
      LineEndOfPrefix(b[1..], rest);
      assert LineEnd(s) == 1 + LineEnd(s[1..]);
    } else {
      assert b + rest == rest;
    }
  }

  lemma {:induction false} LastBraceAt(s: string, lo: nat, hi: nat, j: nat)
    requires lo <= j < hi <= |s| && s[j] == '}'
    requires forall k :: j < k < hi ==> s[k] != '}'
    ensures LastBrace(s, lo, hi) == Some(j)
    decreases hi
  {
    if hi - 1 > j {
      LastBraceAt(s, lo, hi - 1, j);
    }
  }

  /** `{.+}` takes exactly a block when the rest of its line has no `}`. */
  lemma BlockOfLayout(b: string, rest: string)
    requires IsBlock(b) && NoBraceOnFirstLine(rest)
    ensures Block(b + rest) == Some(b)
  {
    var s := b + rest;
    LineEndOfPrefix(b, rest);
    var e := LineEnd(s);
    assert s[|b| - 1] == '}';
    assert forall k :: |b| - 1 < k < e ==> s[k] != '}' by {
      forall k | |b| - 1 < k < e
        ensures s[k] != '}'
      {
        assert s[k] == rest[k - |b|];
      }
    }
    LastBraceAt(s, 2, e, |b| - 1);
    assert s[..|b|] == b;
  }

  /** Every well-formed line matches, with exactly the groups it was laid out from. */
  lemma MatchLineComplete(m: LineMatch, seps: seq<char>, rest: string)
    requires WellFormed(m, seps, rest)
    ensures MatchLine(Layout(m, seps, rest)) == Some(m)
  {
    TokensOfJoined(Leading(m), seps, m.features + rest);
    BlockOfLayout(m.features, rest);
  }

  /** What Token reads: a token, one whitespace character, and the rest. */
  lemma TokenSound(s: string)
    requires Token(s).Some?
    ensures var (t, rest) := Token(s).value;
      IsToken(t) && |t| < |s| && IsSpace(s[|t|]) && s == t + ([s[|t|]] + rest)
  {
    var n := RunLength(s);
    assert s == s[..n] + ([s[n]] + s[n + 1..]);
  }

  /** The separators Tokens skipped over. */
  function Separators(s: string, n: nat): (seps: seq<char>)
    requires Tokens(s, n).Some?
    ensures |seps| == n
  {
    if n == 0 then []
    else
      var (t, r) := Token(s).value;
      [s[|t|]] + Separators(r, n - 1)
  }

  /** One step of Tokens: the first token, then the tokens of what follows its separator. */
  lemma TokensStep(s: string, n: nat)
    requires n > 0 && Tokens(s, n).Some?
    ensures Token(s).Some?
    ensures var (t, r) := Token(s).value;
      && Tokens(r, n - 1).Some?
      && Tokens(s, n).value == ([t] + Tokens(r, n - 1).value.0, Tokens(r, n - 1).value.1)
      && Separators(s, n) == [s[|t|]] + Separators(r, n - 1)
  {
  }

  /** Every group Tokens reads is a token. */
  lemma {:induction false} TokensAreTokens(s: string, n: nat)
    requires Tokens(s, n).Some?
    ensures forall k :: 0 <= k < n ==> IsToken(Tokens(s, n).value.0[k])
  {
    if n > 0 {
      TokensStep(s, n);
      TokenSound(s);
      var r := Token(s).value.1;
      TokensAreTokens(r, n - 1);
      var ts, ts' := Tokens(s, n).value.0, Tokens(r, n - 1).value.0;
      assert forall k :: 0 < k < n ==> ts[k] == ts'[k - 1];
    }
  }

  /** Every separator Tokens skips is whitespace. */
  lemma {:induction false} SeparatorsAreSpaces(s: string, n: nat)
    requires Tokens(s, n).Some?
    ensures forall k :: 0 <= k < n ==> IsSpace(Separators(s, n)[k])
  {
    if n > 0 {
      TokensStep(s, n);
      TokenSound(s);
      var r := Token(s).value.1;
      SeparatorsAreSpaces(r, n - 1);
      var seps, seps' := Separators(s, n), Separators(r, n - 1);
      assert forall k :: 0 < k < n ==> seps[k] == seps'[k - 1];
    }
  }

  /** Tokens, their separators and the unread tail make up the whole input. */
  lemma {:induction false} TokensJoin(s: string, n: nat)
    requires Tokens(s, n).Some?
    ensures s == Joined(Tokens(s, n).value.0, Separators(s, n), Tokens(s, n).value.1)
  {
    if n > 0 {
      TokensStep(s, n);
      TokenSound(s);
      var (t, r) := Token(s).value;
      TokensJoin(r, n - 1);
      var ts, seps := Tokens(s, n).value.0, Separators(s, n);
      assert ts[0] == t && ts[1..] == Tokens(r, n - 1).value.0;
      assert seps[0] == s[|t|] && seps[1..] == Separators(r, n - 1);
    }
  }

  /** What Tokens reads: tokens each followed by one whitespace character, making up the input with the tail. */
  lemma TokensSound(s: string, n: nat)
    requires Tokens(s, n).Some?
    ensures var (ts, tail) := Tokens(s, n).value;
      TokensAndSeps(ts, Separators(s, n)) && s == Joined(ts, Separators(s, n), tail)
  {
    TokensAreTokens(s, n);
    SeparatorsAreSpaces(s, n);
    TokensJoin(s, n);
  }

  /** What Block reads: a block, and a rest whose first line has no `}`. */
  lemma BlockSound(s: string)
    requires Block(s).Some?
    ensures var b := Block(s).value;
      IsBlock(b) && |b| <= |s| && NoBraceOnFirstLine(s[|b|..]) && s == b + s[|b|..]
  {
    var e := LineEnd(s);
    var j := LastBrace(s, 2, e).value;
    var b := s[..j + 1];
    var rest := s[j + 1..];
    assert b == Block(s).value;
    assert s == b + rest;
    assert IsBlock(b);
    LineEndOfPrefix(b, rest);
    forall k | 0 <= k < LineEnd(rest)
      ensures rest[k] != '}'
    {
      assert rest[k] == s[j + 1 + k];
    }
  }

  /**
    Every line the pattern matches is a well-formed layout of its groups:
    together with MatchLineComplete this characterizes the grammar.
   */
  lemma MatchLineSound(s: string)
    requires MatchLine(s).Some?
    ensures var m := MatchLine(s).value;
      exists seps, rest :: WellFormed(m, seps, rest) && s == Layout(m, seps, rest)
  {
    var m := MatchLine(s).value;
    var (ts, r5) := Tokens(s, 5).value;
    TokensSound(s, 5);
    BlockSound(r5);
    var seps := Separators(s, 5);
    var rest := r5[|m.features|..];
    assert Leading(m) == ts;
    assert WellFormed(m, seps, rest);
    assert s == Layout(m, seps, rest);
  }

  /** The parsed packet: `is_valid` is false exactly when the line did not match. */
  datatype PacketData =
    | Invalid
    | Valid(
        sourceIp: string,
        destinationIp: string,
        sourcePort: string,
        destinationPort: string,
        protocol: string,
        flowIdentifier: (string, string, string, string, string),
        timestamp: int,         // nanoseconds since the epoch
        ipSize: Value,
        flagCwr: Value,
        flagEce: Value,
        flagUrg: Value,
        flagAck: Value,
        flagPsh: Value,
        flagRst: Value,
        flagSyn: Value,
        flagFin: Value)
  {
    predicate IsValid() { Valid? }
  }

  /** The JSON fields a packet line supplies, as both parsers read them. */
  datatype Decoded = Decoded(timestamp: int, ipLen: Value, tcpFlags: seq<Value>)

  /** A JSON decoder: the decoded object, or None when `json.loads` fails. */
  type JsonDecoder = string -> Option<map<string, Value>>

  /** `obj[key]` on a decoded JSON object. */
  function JsonGet(obj: map<string, Value>, key: string): Result<Value>
  {
    if key in obj then Ok(obj[key]) else Err(KeyError(key))
  }

  /**
    `tcp_flags[0]` to `tcp_flags[7]`: a list's first eight items, or a
    string's first eight characters as one-character strings. A shorter
    list or string raises IndexError; a value that cannot be indexed
    raises TypeError.
   */
  function FirstFlags(flags: Value): (r: Result<seq<Value>>)
    ensures r.Ok? <==> (flags.List? && |flags.items| >= 8) || (flags.Str? && |flags.s| >= 8)
    ensures flags.List? && |flags.items| >= 8 ==> r == Ok(flags.items[..8])
    ensures flags.Str? && |flags.s| >= 8 ==>
      && r.Ok? && |r.value| == 8
      && forall i :: 0 <= i < 8 ==> r.value[i] == Str([flags.s[i]])
    ensures r.Err? ==> r.error == if flags.List? || flags.Str? then IndexError else TypeError
  {
    match flags
    case List(xs) => if |xs| < 8 then Err(IndexError) else Ok(xs[..8])
    case Str(cs) => if |cs| < 8 then Err(IndexError) else Ok(seq(8, i requires 0 <= i < 8 => Str([cs[i]])))
    case _ => Err(TypeError)
  }

  /**
    Reads `ts` (microseconds, converted to a nanosecond timestamp), `ip_len`
    and `tcp_flags[0..7]` from the features group, in that order.
   */
  function DecodeFeatures(decode: JsonDecoder, features: string): (r: Result<Decoded>)
    ensures r.Ok? ==> |r.value.tcpFlags| == 8
  {
    match decode(features)
    case None => Err(JsonDecodeError)
    case Some(obj) =>
      var ts :- JsonGet(obj, "ts");
      if !ts.Int? then Err(TypeError)
      else
        var ipLen :- JsonGet(obj, "ip_len");
        var flags :- JsonGet(obj, "tcp_flags");
        var first :- FirstFlags(flags);
        Ok(Decoded(ts.i * 1000, ipLen, first))
  }

  /** `PacketData(feature_data)`. */
  function Parse(line: string, decode: JsonDecoder): Result<PacketData>
  {
    match MatchLine(line)
    case None => Ok(Invalid)
    case Some(m) =>
      var d :- DecodeFeatures(decode, m.features);
      Ok(Valid(
        m.srcIp, m.dstIp, m.srcPort, m.dstPort, m.proto,
        (m.srcIp, m.dstIp, m.srcPort, m.dstPort, m.proto),
        d.timestamp, d.ipLen,
        d.tcpFlags[0], d.tcpFlags[1], d.tcpFlags[2], d.tcpFlags[3],
        d.tcpFlags[4], d.tcpFlags[5], d.tcpFlags[6], d.tcpFlags[7]))
  }

  /**
    A line that does not match gives an invalid packet and nothing else; a
    matching line gives a valid packet whose address, port and protocol
    fields are the five leading tokens verbatim and whose flow identifier is
    their 5-tuple in that order.
   */
  lemma ParseFields(line: string, decode: JsonDecoder)
    ensures MatchLine(line).None? ==> Parse(line, decode) == Ok(Invalid)
    ensures Parse(line, decode).Ok? && Parse(line, decode).value.IsValid() ==>
      var p := Parse(line, decode).value;
      exists seps, rest ::
        var m := LineMatch(p.sourceIp, p.destinationIp, p.sourcePort, p.destinationPort, p.protocol,
                           MatchLine(line).value.features);
        WellFormed(m, seps, rest) && line == Layout(m, seps, rest)
    ensures Parse(line, decode).Ok? && Parse(line, decode).value.IsValid() ==>
      var p := Parse(line, decode).value;
      p.flowIdentifier == (p.sourceIp, p.destinationIp, p.sourcePort, p.destinationPort, p.protocol)
  {
    if MatchLine(line).Some? {
      MatchLineSound(line);
    }
  }

  /** The decoded fields are `ts` in microseconds as nanoseconds, `ip_len` and the first eight flags. */
  lemma DecodeFeaturesFields(decode: JsonDecoder, features: string, obj: map<string, Value>, us: int, flags: seq<Value>)
    requires decode(features) == Some(obj)
    requires "ts" in obj && obj["ts"] == Int(us) && "ip_len" in obj
    requires "tcp_flags" in obj && obj["tcp_flags"] == List(flags) && |flags| >= 8
    ensures DecodeFeatures(decode, features) == Ok(Decoded(us * 1000, obj["ip_len"], flags[..8]))
  {
  }

  /**
    The flags are `tcp_flags[0]` to `tcp_flags[7]` in the order cwr, ece, urg,
    ack, psh, rst, syn, fin; `ip_size` is the decoded `ip_len`; the timestamp
    is `ts` read in microseconds.
   */
  lemma ParseDecodedFields(line: string, decode: JsonDecoder, obj: map<string, Value>, us: int, flags: seq<Value>)
    requires MatchLine(line).Some? && decode(MatchLine(line).value.features) == Some(obj)
    requires "ts" in obj && obj["ts"] == Int(us) && "ip_len" in obj
    requires "tcp_flags" in obj && obj["tcp_flags"] == List(flags) && |flags| >= 8
    ensures Parse(line, decode).Ok? && Parse(line, decode).value.IsValid()
    ensures var p := Parse(line, decode).value;
      && p.timestamp == us * 1000
      && p.ipSize == obj["ip_len"]
      && [p.flagCwr, p.flagEce, p.flagUrg, p.flagAck, p.flagPsh, p.flagRst, p.flagSyn, p.flagFin] == flags[..8]
  {
    var m := MatchLine(line).value;
    DecodeFeaturesFields(decode, m.features, obj, us, flags);
    var p := Parse(line, decode).value;
    assert p.flagCwr == flags[0] && p.flagEce == flags[1] && p.flagUrg == flags[2] && p.flagAck == flags[3];
    assert p.flagPsh == flags[4] && p.flagRst == flags[5] && p.flagSyn == flags[6] && p.flagFin == flags[7];
  }

  /**
    A string of flags is indexed character by character: flag i is the
    one-character string at position i.
   */
  lemma ParseStringFlags(line: string, decode: JsonDecoder, obj: map<string, Value>, us: int, cs: string)
    requires MatchLine(line).Some? && decode(MatchLine(line).value.features) == Some(obj)
    requires "ts" in obj && obj["ts"] == Int(us) && "ip_len" in obj
    requires "tcp_flags" in obj && obj["tcp_flags"] == Str(cs) && |cs| >= 8
    ensures Parse(line, decode).Ok? && Parse(line, decode).value.IsValid()
    ensures var p := Parse(line, decode).value;
      && p.timestamp == us * 1000
      && p.ipSize == obj["ip_len"]
      && [p.flagCwr, p.flagEce, p.flagUrg, p.flagAck, p.flagPsh, p.flagRst, p.flagSyn, p.flagFin]
         == [Str([cs[0]]), Str([cs[1]]), Str([cs[2]]), Str([cs[3]]), Str([cs[4]]), Str([cs[5]]), Str([cs[6]]), Str([cs[7]])]
  {
    var first := FirstFlags(Str(cs)).value;
    assert DecodeFeatures(decode, MatchLine(line).value.features) == Ok(Decoded(us * 1000, obj["ip_len"], first));
  }

  /** A matching line whose JSON lacks a field, or has too few flags or flags that cannot be indexed, raises. */
  lemma ParseErrors(line: string, decode: JsonDecoder)
    requires MatchLine(line).Some?
    ensures decode(MatchLine(line).value.features).None? ==> Parse(line, decode) == Err(JsonDecodeError)
    ensures var o := decode(MatchLine(line).value.features);
      o.Some? && "ts" !in o.value ==> Parse(line, decode) == Err(KeyError("ts"))
    ensures var o := decode(MatchLine(line).value.features);
      o.Some? && "ts" in o.value && o.value["ts"].Int? && "ip_len" in o.value &&
      "tcp_flags" in o.value && o.value["tcp_flags"].List? && |o.value["tcp_flags"].items| < 8
      ==> Parse(line, decode) == Err(IndexError)
    ensures var o := decode(MatchLine(line).value.features);
      o.Some? && "ts" in o.value && o.value["ts"].Int? && "ip_len" in o.value &&
      "tcp_flags" in o.value && o.value["tcp_flags"].Str? && |o.value["tcp_flags"].s| < 8
      ==> Parse(line, decode) == Err(IndexError)
    ensures var o := decode(MatchLine(line).value.features);
      o.Some? && "ts" in o.value && o.value["ts"].Int? && "ip_len" in o.value &&
      "tcp_flags" in o.value && !o.value["tcp_flags"].List? && !o.value["tcp_flags"].Str?
      ==> Parse(line, decode) == Err(TypeError)
  {
  }
}
