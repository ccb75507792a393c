/** The command line's list of TND servers (internal/agent/cmd.go). */
module Servers {
  import opened Options
  import opened StatusObjects

  // ---------------------------------------------------------------- text operations

  function ExtendLast(parts: seq<string>, t: string): seq<string>
    requires parts != []
  {
    parts[..|parts| - 1] + [parts[|parts| - 1] + t]
  }

  /** strings.Split at commas. */
  function Split(s: string): (parts: seq<string>)
    ensures parts != []
  {
    if s == "" then [""]
    else
      var c := s[|s| - 1];
      var before := Split(s[..|s| - 1]);
      if c == ',' then before + [""] else ExtendLast(before, [c])
  }

  /** strings.Join with commas. */
  function Join(parts: seq<string>): string {
    if parts == [] then ""
    else if |parts| == 1 then parts[0]
    else Join(parts[..|parts| - 1]) + "," + parts[|parts| - 1]
  }

  /** strings.LastIndex of a colon. */
  function LastColon(s: string): (i: int)
    ensures -1 <= i < |s|
    ensures i >= 0 ==> s[i] == ':'
    ensures forall j | i < j < |s| :: s[j] != ':'
  {
    if s == "" then -1 else if s[|s| - 1] == ':' then |s| - 1 else LastColon(s[..|s| - 1])
  }

  /** unicode.ToLower on one character. */
  type Lowering = char -> char

  /** On ASCII it lowers A to Z; elsewhere it is only known to be idempotent and to give neither comma nor colon. */
  ghost predicate IsLowering(lower: Lowering) {
    && (forall c | c <= '\U{7F}' :: lower(c) == if 'A' <= c <= 'Z' then c - 'A' + 'a' else c)
    && (forall c :: lower(lower(c)) == lower(c))
    && (forall c :: lower(c) == ',' || lower(c) == ':' ==> lower(c) == c)
  }

  /** strings.ToLower. */
  function Lower(lower: Lowering, s: string): string {
    seq(|s|, i requires 0 <= i < |s| => lower(s[i]))
  }

  // ---------------------------------------------------------------- parsing and printing

  /** The server that a segment describes, if it has a colon with something after it. */
  function ParseServer(lower: Lowering, s: string): Option<Server> {
    var i := LastColon(s);
    if i == -1 || |s| < i + 2 then None else Some(Server(s[..i], Lower(lower, s[i + 1..])))
  }

  function ParseAll(lower: Lowering, segments: seq<string>): Option<seq<Server>> {
    if segments == [] then Some([])
    else
      var before := ParseAll(lower, segments[..|segments| - 1]);
      var last := ParseServer(lower, segments[|segments| - 1]);
      if before.None? || last.None? then None else Some(before.value + [last.value])
  }

  function Parse(lower: Lowering, text: string): Option<seq<Server>> {
    if text == "" then None else ParseAll(lower, Split(text))
  }

  /** parseTNDServers; the first bad segment ends it. */
  method ParseTNDServers(lower: Lowering, servers: string) returns (list: seq<Server>, ok: bool)
    ensures ok <==> Parse(lower, servers).Some?
    ensures ok ==> list == Parse(lower, servers).value
    ensures !ok ==> list == []
  {
    if servers == "" {
      return [], false;
    }
    list := [];
    var segments := Split(servers);
    var n := 0;
    while n < |segments|
      invariant n <= |segments|
      invariant ParseAll(lower, segments[..n]) == Some(list)
    {
      var s := segments[n];
      ParseNext(lower, segments, n);
      var i := LastColon(s);
      if i == -1 || |s| < i + 2 {
        NoneStays(lower, segments, n + 1);
        return [], false;
      }
      var server := Server(s[..i], Lower(lower, s[i + 1..]));
      list := list + [server];
      n := n + 1;
    }
    assert segments[..n] == segments;
    ok := true;
  }

  /** One more segment. */
  lemma ParseNext(lower: Lowering, segments: seq<string>, n: nat)
    requires n < |segments|
    ensures var before, last := ParseAll(lower, segments[..n]), ParseServer(lower, segments[n]);
            ParseAll(lower, segments[..n + 1]) == if before.None? || last.None? then None else Some(before.value + [last.value])
  {
    assert segments[..n + 1][..n] == segments[..n];
  }

  lemma {:induction false} NoneStays(lower: Lowering, segments: seq<string>, n: nat)
    requires n <= |segments| && ParseAll(lower, segments[..n]).None?
    ensures ParseAll(lower, segments).None?
    decreases |segments| - n
  {
    if n == |segments| {
      assert segments[..n] == segments;
    } else {
      assert segments[..n + 1][..n] == segments[..n];
      NoneStays(lower, segments, n + 1);
    }
  }

  function PrintServer(s: Server): string { s.url + ":" + s.hash }

  function PrintAll(list: seq<Server>): seq<string> {
    if list == [] then [] else PrintAll(list[..|list| - 1]) + [PrintServer(list[|list| - 1])]
  }

  /** The inverse of parsing: url:hash pairs joined with commas. */
  function Print(list: seq<Server>): string { Join(PrintAll(list)) }

  /** A pair that survives printing and parsing. */
  predicate Plain(lower: Lowering, s: Server) {
    && ',' !in s.url && ',' !in s.hash && ':' !in s.hash
    && s.hash != "" && Lower(lower, s.hash) == s.hash
  }

  // ---------------------------------------------------------------- splitting and joining

  lemma SplitOne(s: string, c: char)
    ensures Split(s + [c]) == if c == ',' then Split(s) + [""] else ExtendLast(Split(s), [c])
  {
    assert (s + [c])[..|s|] == s;
  }

  lemma {:induction false} SplitParts(s: string)
    ensures forall p | p in Split(s) :: ',' !in p
    ensures ',' !in s ==> Split(s) == [s]
  {
    if s != "" {
      var t, c := s[..|s| - 1], s[|s| - 1];
      SplitParts(t);
      var parts := Split(t);
      assert parts[|parts| - 1] in parts;
      assert s == t + [c];
    }
  }

  lemma JoinExtends(parts: seq<string>, last: string, t: string)
    ensures Join(parts + [last + t]) == Join(parts + [last]) + t
  {
    assert (parts + [last + t])[..|parts|] == parts && (parts + [last])[..|parts|] == parts;
    if parts != [] {
      assert Join(parts) + "," + (last + t) == Join(parts) + "," + last + t;
    }
  }

  lemma JoinExtendLast(parts: seq<string>, t: string)
    requires parts != []
    ensures Join(ExtendLast(parts, t)) == Join(parts) + t
  {
    var p, last := parts[..|parts| - 1], parts[|parts| - 1];
    assert parts == p + [last];
    JoinExtends(p, last, t);
  }

  lemma JoinEmpty(parts: seq<string>)
    requires parts != []
    ensures Join(parts + [""]) == Join(parts) + [',']
  {
    assert (parts + [""])[..|parts|] == parts;
    assert Join(parts) + "," + "" == Join(parts) + [','];
  }

  lemma {:induction false} JoinSplit(s: string)
    ensures Join(Split(s)) == s
  {
    if s != "" {
      var t, c := s[..|s| - 1], s[|s| - 1];
      assert s == t + [c];
      JoinSplit(t);
      SplitOne(t, c);
      if c == ',' {
        JoinEmpty(Split(t));
      } else {
        JoinExtendLast(Split(t), [c]);
      }
    }
  }

  lemma ExtendTwice(parts: seq<string>, t: string, u: string)
    requires parts != []
    ensures ExtendLast(ExtendLast(parts, t), u) == ExtendLast(parts, t + u)
  {
    var p, last := parts[..|parts| - 1], parts[|parts| - 1];
    assert (p + [last + t])[..|p|] == p;
    assert last + t + u == last + (t + u);
  }

  lemma ExtendNothing(parts: seq<string>)
    requires parts != []
    ensures ExtendLast(parts, "") == parts
  {
    assert parts[|parts| - 1] + "" == parts[|parts| - 1];
  }

  /** Text without commas extends the last part. */
  lemma {:induction false} SplitExtends(s: string, t: string)
    requires ',' !in t
    ensures Split(s + t) == ExtendLast(Split(s), t)
  {
    if t == "" {
      assert s + t == s;
      ExtendNothing(Split(s));
    } else {
      var u, c := t[..|t| - 1], t[|t| - 1];
      assert t == u + [c] && s + t == (s + u) + [c];
      SplitExtends(s, u);
      SplitOne(s + u, c);
      ExtendTwice(Split(s), u, [c]);
    }
  }

  lemma {:induction false} SplitJoin(parts: seq<string>)
    requires parts != [] && forall p | p in parts :: ',' !in p
    ensures Split(Join(parts)) == parts
  {
    var before, last := parts[..|parts| - 1], parts[|parts| - 1];
    assert last in parts;
    if |parts| == 1 {
      SplitParts(parts[0]);
    } else {
      SplitJoin(before);
      SplitTwo(Join(before), last);
      assert Join(parts) == Join(before) + "," + last;
    }
  }

  lemma SplitTwo(s: string, last: string)
    requires ',' !in last
    ensures Split(s + "," + last) == Split(s) + [last]
  {
    SplitOne(s, ',');
    assert s + [','] == s + ",";
    SplitExtends(s + ",", last);
    assert "" + last == last;
  }

  // ---------------------------------------------------------------- round trips

  lemma ColonAt(url: string, hash: string)
    ensures var t := url + ":" + hash; |t| == |url| + 1 + |hash| && t[|url|] == ':' && t[..|url|] == url && t[|url| + 1..] == hash
  {
  }

  lemma LastColonIs(t: string, k: nat)
    requires k < |t| && t[k] == ':' && ':' !in t[k + 1..]
    ensures LastColon(t) == k
  {
    forall j | k < j < |t|
      ensures t[j] != ':'
    {
      assert t[k + 1..][j - k - 1] == t[j];
    }
  }

  lemma PlainParses(lower: Lowering, s: Server)
    requires Plain(lower, s)
    ensures ParseServer(lower, PrintServer(s)) == Some(s)
    ensures ',' !in PrintServer(s)
  {
    var t := PrintServer(s);
    ColonAt(s.url, s.hash);
    LastColonIs(t, |s.url|);
  }

  lemma {:induction false} PlainParseAll(lower: Lowering, list: seq<Server>)
    requires forall s | s in list :: Plain(lower, s)
    ensures ParseAll(lower, PrintAll(list)) == Some(list)
  {
    if list != [] {
      var before, last := list[..|list| - 1], list[|list| - 1];
      assert list == before + [last] && last in list;
      PlainParseAll(lower, before);
      PlainParses(lower, last);
      PrintsOneMore(before, last);
      ParsesOneMore(lower, PrintAll(before), PrintServer(last));
    }
  }

  lemma {:induction false} PlainHasNoCommas(lower: Lowering, list: seq<Server>)
    requires forall s | s in list :: Plain(lower, s)
    ensures forall p | p in PrintAll(list) :: ',' !in p
  {
    if list != [] {
      var before, last := list[..|list| - 1], list[|list| - 1];
      assert list == before + [last] && last in list;
      PlainHasNoCommas(lower, before);
      PlainParses(lower, last);
      PrintsOneMore(before, last);
    }
  }

  lemma ParsesOneMore(lower: Lowering, parts: seq<string>, p: string)
    requires ParseAll(lower, parts).Some? && ParseServer(lower, p).Some?
    ensures ParseAll(lower, parts + [p]) == Some(ParseAll(lower, parts).value + [ParseServer(lower, p).value])
  {
    assert (parts + [p])[..|parts|] == parts;
  }

  lemma ColonSplits(t: string, i: nat)
    requires i < |t| && t[i] == ':'
    ensures t[..i] + ":" + t[i + 1..] == t
  {
    assert t == t[..i] + [t[i]] + t[i + 1..];
    assert [t[i]] == ":";
  }

  lemma NotInPart(t: string, c: char, i: nat)
    requires i < |t| && c !in t
    ensures c !in t[..i] && c !in t[i + 1..]
  {
  }

  lemma NoColonAfter(t: string)
    requires LastColon(t) >= 0
    ensures ':' !in t[LastColon(t) + 1..]
  {
  }

  /** What parsing a segment with its last colon at i gives, in terms of the server before lower-casing. */
  lemma ParsedServer(lower: Lowering, t: string, i: nat)
    requires IsLowering(lower) && i == LastColon(t) && i + 2 <= |t| && ',' !in t
    ensures ParseServer(lower, t).Some? && Plain(lower, ParseServer(lower, t).value)
    ensures PrintServer(Server(t[..i], t[i + 1..])) == t
  {
    PartsPlain(lower, t, i);
    ColonSplits(t, i);
  }

  lemma PartsPlain(lower: Lowering, t: string, i: nat)
    requires IsLowering(lower) && i == LastColon(t) && |t| >= i + 2 && ',' !in t
    ensures Plain(lower, Server(t[..i], Lower(lower, t[i + 1..])))
  {
    NotInPart(t, ',', i);
    NoColonAfter(t);
    LoweredIsPlain(lower, t[i + 1..]);
  }

  lemma LoweredIsPlain(lower: Lowering, h: string)
    requires IsLowering(lower) && ',' !in h && ':' !in h
    ensures var l := Lower(lower, h); ',' !in l && ':' !in l && Lower(lower, l) == l
  {
    forall k | 0 <= k < |h|
      ensures lower(h[k]) != ',' && lower(h[k]) != ':'
    {
      assert h[k] in h;
    }
  }

  /** The server a segment describes, before lower-casing. */
  function RawServer(t: string): Server
    requires LastColon(t) >= 0
  {
    Server(t[..LastColon(t)], t[LastColon(t) + 1..])
  }

  /** The raw servers of the segments. */
  function Raw(lower: Lowering, segments: seq<string>): seq<Server>
    requires ParseAll(lower, segments).Some?
  {
    if segments == [] then []
    else Raw(lower, segments[..|segments| - 1]) + [RawServer(segments[|segments| - 1])]
  }

  lemma RawOne(lower: Lowering, segments: seq<string>, t: string)
    requires ParseAll(lower, segments + [t]).Some?
    ensures ParseAll(lower, segments).Some? && ParseServer(lower, t).Some?
    ensures Raw(lower, segments + [t]) == Raw(lower, segments) + [RawServer(t)]
  {
    assert (segments + [t])[..|segments|] == segments;
  }

  lemma RawServerPrints(lower: Lowering, t: string)
    requires IsLowering(lower) && ParseServer(lower, t).Some? && ',' !in t
    ensures PrintServer(RawServer(t)) == t
  {
    ParsedServer(lower, t, LastColon(t));
  }

  ghost predicate LowerCased(lower: Lowering, raw: seq<Server>, list: seq<Server>) {
    |raw| == |list| && forall i | 0 <= i < |raw| :: list[i] == Server(raw[i].url, Lower(lower, raw[i].hash))
  }

  lemma {:induction false} RawPrints(lower: Lowering, segments: seq<string>)
    requires IsLowering(lower) && ParseAll(lower, segments).Some? && forall p | p in segments :: ',' !in p
    ensures PrintAll(Raw(lower, segments)) == segments
  {
    if segments != [] {
      var before, t := segments[..|segments| - 1], segments[|segments| - 1];
      assert segments == before + [t] && t in segments;
      RawOne(lower, before, t);
      RawPrints(lower, before);
      RawServerPrints(lower, t);
      PrintsOneMore(Raw(lower, before), RawServer(t));
    }
  }

  lemma {:induction false} RawLowers(lower: Lowering, segments: seq<string>)
    requires ParseAll(lower, segments).Some?
    ensures LowerCased(lower, Raw(lower, segments), ParseAll(lower, segments).value)
  {
    if segments != [] {
      RawLowers(lower, segments[..|segments| - 1]);
    }
  }

  lemma {:induction false} ParsedPlain(lower: Lowering, segments: seq<string>)
    requires IsLowering(lower) && ParseAll(lower, segments).Some? && forall p | p in segments :: ',' !in p
    ensures forall s | s in ParseAll(lower, segments).value :: Plain(lower, s)
  {
    if segments != [] {
      assert segments[|segments| - 1] in segments;
      ParsedPlain(lower, segments[..|segments| - 1]);
      ParsedServer(lower, segments[|segments| - 1], LastColon(segments[|segments| - 1]));
    }
  }

  lemma PrintsOneMore(list: seq<Server>, s: Server)
    ensures PrintAll(list + [s]) == PrintAll(list) + [PrintServer(s)]
  {
    assert (list + [s])[..|list|] == list;
  }

  /** Every accepted text is reproduced by printing the parsed servers, up to the case of the hashes. */
  lemma AcceptedTextPrints(lower: Lowering, text: string)
    requires IsLowering(lower) && Parse(lower, text).Some?
    ensures exists raw :: Print(raw) == text && LowerCased(lower, raw, Parse(lower, text).value)
    ensures Parse(lower, text).value != [] && forall s | s in Parse(lower, text).value :: Plain(lower, s)
  {
    SplitParts(text);
    JoinSplit(text);
    RawPrints(lower, Split(text));
    RawLowers(lower, Split(text));
    ParsedPlain(lower, Split(text));
    var raw := Raw(lower, Split(text));
    assert Print(raw) == text;
  }

  /** Printing and parsing gives a list back exactly if it is not empty and all its pairs are plain. */
  lemma RoundTrip(lower: Lowering, list: seq<Server>)
    requires IsLowering(lower)
    ensures Parse(lower, Print(list)) == Some(list) <==> list != [] && forall s | s in list :: Plain(lower, s)
  {
    if list != [] && forall s | s in list :: Plain(lower, s) {
      PlainParseAll(lower, list);
      PlainHasNoCommas(lower, list);
      SplitJoin(PrintAll(list));
    }
    if Parse(lower, Print(list)) == Some(list) {
      AcceptedTextPrints(lower, Print(list));
    }
  }
}
