/** The signature headers of the two providers: how they are parsed, and when a delivery is
    accepted. The MAC and the reading of an integer are parameters. */
module Signatures {
  import opened BillingTypes
  import opened Text

  const TOLERANCE_SECONDS := 300.0

  datatype Verdict =
    | Accepted
    | NoSecret | MissingHeader | Malformed | BadTimestamp | OutsideTolerance | BadSecret | Mismatch
    | Untranslated     // an exception that is not the verifier's own

  // ----- Comparing the expected value with the candidates -----

  datatype Comparison = Match | NoMatch | Raises

  predicate AllAscii(candidates: seq<string>) {
    forall c :: c in candidates ==> IsAscii(c)
  }

  /** The candidates are compared in order; `hmac.compare_digest` refuses text that is not
      ASCII by raising. */
  function Compared(expected: string, candidates: seq<string>): Comparison {
    if candidates == [] then NoMatch
    else if !IsAscii(candidates[0]) then Raises
    else if candidates[0] == expected then Match
    else Compared(expected, candidates[1..])
  }

  method CompareAny(expected: string, candidates: seq<string>) returns (c: Comparison)
    ensures c == Compared(expected, candidates)
  {
    for i := 0 to |candidates|
      invariant Compared(expected, candidates) == Compared(expected, candidates[i..])
    {
      if !IsAscii(candidates[i]) {
        return Raises;
      }
      if candidates[i] == expected {
        return Match;
      }
    }
    return NoMatch;
  }

  /** Among ASCII candidates matching is membership, and a match never comes from elsewhere. */
  lemma {:induction false} MatchIsMembership(expected: string, candidates: seq<string>)
    ensures AllAscii(candidates) ==> Compared(expected, candidates) == if expected in candidates then Match else NoMatch
    ensures expected !in candidates
            ==> Compared(expected, candidates) == if AllAscii(candidates) then NoMatch else Raises
  {
    if candidates != [] {
      assert candidates == [candidates[0]] + candidates[1..];
      MatchIsMembership(expected, candidates[1..]);
    }
  }

  /** The first candidate that is not ASCII, with no match before it. */
  predicate RaisesAt(expected: string, candidates: seq<string>, i: int) {
    && 0 <= i < |candidates| && (exists c :: c in candidates[i] && c as int > 127)
    && AllAscii(candidates[..i]) && expected !in candidates[..i]
  }

  /** The comparison raises exactly when a candidate that is not ASCII comes before every
      occurrence of the expected value. */
  lemma {:induction false} RaisesExactly(expected: string, candidates: seq<string>)
    ensures Compared(expected, candidates) == Raises <==> exists i :: RaisesAt(expected, candidates, i)
  {
    if candidates != [] {
      var rest := candidates[1..];
      RaisesExactly(expected, rest);
      AsciiExactly(candidates[0]);
      assert RaisesAt(expected, candidates, 0) <==> !IsAscii(candidates[0]);
      if i :| RaisesAt(expected, rest, i) {
        RaisesLater(expected, candidates, i);
      }
      if i :| RaisesAt(expected, candidates, i) && i != 0 {
        RaisesLater(expected, candidates, i - 1);
      }
    }
  }

  lemma RaisesLater(expected: string, candidates: seq<string>, i: nat)
    requires i + 1 < |candidates|
    ensures RaisesAt(expected, candidates, i + 1)
            <==> IsAscii(candidates[0]) && candidates[0] != expected && RaisesAt(expected, candidates[1..], i)
  {
    assert candidates[..i + 1] == [candidates[0]] + candidates[1..][..i];
  }

  lemma {:induction false} ComparedConcat(expected: string, a: seq<string>, b: seq<string>)
    ensures Compared(expected, a + b)
            == if Compared(expected, a) == NoMatch then Compared(expected, b) else Compared(expected, a)
  {
    if a == [] {
      assert a + b == b;
    } else {
      assert (a + b)[1..] == a[1..] + b;
      ComparedConcat(expected, a[1..], b);
    }
  }

  /** Candidates added after a match never undo it. Those added before it, none of them being
      the expected value, leave it standing exactly when they are all ASCII. */
  lemma MatchIsMonotone(expected: string, before: seq<string>, candidates: seq<string>, after: seq<string>)
    requires Compared(expected, candidates) == Match
    ensures Compared(expected, candidates + after) == Match
    ensures AllAscii(before) ==> Compared(expected, before + candidates) == Match
    ensures expected !in before ==> (Compared(expected, before + candidates) == Match <==> AllAscii(before))
  {
    ComparedConcat(expected, candidates, after);
    ComparedConcat(expected, before, candidates);
    MatchIsMembership(expected, before);
  }

  predicate Timely(timestamp: string, parse: string -> Option<int>, now: real) {
    parse(timestamp).Some? && -TOLERANCE_SECONDS <= now - parse(timestamp).value as real <= TOLERANCE_SECONDS
  }

  /** A timestamp is taken when it is an integer at most five minutes from now, either way. */
  lemma TimelyExactly(timestamp: string, parse: string -> Option<int>, now: real)
    ensures Timely(timestamp, parse, now)
            <==> && parse(timestamp).Some?
                 && var age := now - parse(timestamp).value as real;
                    (if age < 0.0 then -age else age) <= 60.0 * 5.0
  {
  }

  // ----- Dodo: a space-delimited list of "v1,<signature>" -----

  /** The candidate of one part of the header, if any. */
  function Candidate(part: string): seq<string> {
    var p := Strip(part);
    if p == "" then []
    else
      var signature := Partition(p, ',').1;
      [if signature != "" then signature else p]
  }

  function Candidates(parts: seq<string>): seq<string> {
    if parts == [] then [] else Candidates(parts[..|parts| - 1]) + Candidate(parts[|parts| - 1])
  }

  function DodoCandidates(header: string): seq<string> {
    Candidates(Split(header, ' '))
  }

  datatype DodoHeaders = DodoHeaders(id: string, timestamp: string, signature: string)

  predicate HasHeaders(h: DodoHeaders) {
    h.id != "" && h.timestamp != "" && h.signature != ""
  }

  /** Everything that is checked before the signature header is read. */
  predicate DodoChecked(h: DodoHeaders, secret: string, mac: (string, string) -> Option<string>,
                        parse: string -> Option<int>, now: real) {
    && secret != ""
    && h.id != "" && h.timestamp != "" && h.signature != ""
    && Timely(h.timestamp, parse, now)
    && mac(h.id, h.timestamp).Some?
  }

  predicate DodoAccepts(h: DodoHeaders, secret: string, mac: (string, string) -> Option<string>,
                        parse: string -> Option<int>, now: real) {
    && DodoChecked(h, secret, mac, parse, now)
    && Compared(mac(h.id, h.timestamp).value, DodoCandidates(h.signature)) == Match
  }

  /** The loop that collects the candidates of the header. */
  method ParseDodoSignatures(header: string) returns (candidates: seq<string>)
    ensures candidates == DodoCandidates(header)
  {
    candidates := [];
    var parts := Split(header, ' ');
    for i := 0 to |parts|
      invariant candidates == Candidates(parts[..i])
    {
      assert parts[..i + 1][..i] == parts[..i];
      var part := Strip(parts[i]);
      if part == "" {
        continue;
      }
      var signature := Partition(part, ',').1;
      candidates := candidates + [if signature != "" then signature else part];
    }
    assert parts[..|parts|] == parts;
  }

  /** `verify_dodo_signature`. `mac` stands for the signature computed over the id, the
      timestamp and the body; it is absent when the secret is not base64. */
  method VerifyDodoSignature(h: DodoHeaders, secret: string, mac: (string, string) -> Option<string>,
                             parse: string -> Option<int>, now: real)
    returns (v: Verdict)
    ensures v == Accepted <==> DodoAccepts(h, secret, mac, parse, now)
    ensures v == Malformed <==> DodoChecked(h, secret, mac, parse, now) && Blank(h.signature)
    ensures v == NoSecret <==> secret == ""
    ensures v == MissingHeader <==> secret != "" && (h.id == "" || h.timestamp == "" || h.signature == "")
    ensures v == BadTimestamp <==> secret != "" && HasHeaders(h) && parse(h.timestamp).None?
    ensures v == OutsideTolerance
            <==> secret != "" && HasHeaders(h) && parse(h.timestamp).Some? && !Timely(h.timestamp, parse, now)
    ensures v == BadSecret
            <==> secret != "" && HasHeaders(h) && Timely(h.timestamp, parse, now) && mac(h.id, h.timestamp).None?
    ensures v == Mismatch || v == Untranslated ==>
              && DodoChecked(h, secret, mac, parse, now)
              && (v == Untranslated <==> Compared(mac(h.id, h.timestamp).value, DodoCandidates(h.signature)) == Raises)
  {
    if secret == "" {
      return NoSecret;
    }
    if h.id == "" || h.timestamp == "" || h.signature == "" {
      return MissingHeader;
    }
    var ts := parse(h.timestamp);
    if ts.None? {
      return BadTimestamp;
    }
    var age := now - ts.value as real;
    if age > TOLERANCE_SECONDS || age < -TOLERANCE_SECONDS {
      return OutsideTolerance;
    }
    var expected := mac(h.id, h.timestamp);
    if expected.None? {
      return BadSecret;
    }
    var candidates := ParseDodoSignatures(h.signature);
    NoCandidatesExactly(h.signature);
    if candidates == [] {
      return Malformed;
    }
    var c := CompareAny(expected.value, candidates);
    return match c case Match => Accepted case NoMatch => Mismatch case Raises => Untranslated;
  }

  /** The candidate of a part of the header: without the white space around it, what follows
      its first comma; all of it when nothing does, or there is no comma. A blank part has none. */
  lemma CandidateExactly(part: string) returns (before: nat, after: nat)
    ensures Surrounds(part, Strip(part), before, after)
    ensures Blank(part) <==> Candidate(part) == []
    ensures !Blank(part) ==>
              var p := Strip(part);
              && |Candidate(part)| == 1
              && forall version, signature :: ',' !in version && p == version + [','] + signature ==>
                                                Candidate(part)[0] == if signature == "" then p else signature
    ensures !Blank(part) && ',' !in Strip(part) ==> Candidate(part) == [Strip(part)]
  {
    before, after := StripExactly(part);
    BlankStripsToNothing(part);
    var p := Strip(part);
    PartitionMeaning(p, ',');
    forall version, signature | ',' !in version && p == version + [','] + signature
      ensures Partition(p, ',') == (version, signature)
    {
      PartitionAfterPrefix(version, ',', signature);
    }
  }

  lemma {:induction false} CandidatesConcat(a: seq<string>, b: seq<string>)
    ensures Candidates(a + b) == Candidates(a) + Candidates(b)
  {
    if b == [] {
      assert a + b == a;
    } else {
      assert (a + b)[..|a + b| - 1] == a + b[..|b| - 1];
      CandidatesConcat(a, b[..|b| - 1]);
    }
  }

  lemma {:induction false} NoCandidates(parts: seq<string>)
    ensures Candidates(parts) == [] <==> forall part :: part in parts ==> Blank(part)
  {
    if parts != [] {
      var init := parts[..|parts| - 1];
      NoCandidates(init);
      assert parts == init + [parts[|parts| - 1]];
      BlankStripsToNothing(parts[|parts| - 1]);
    }
  }

  /** A header gives no candidate exactly when it is nothing but white space. */
  lemma NoCandidatesExactly(header: string)
    ensures DodoCandidates(header) == [] <==> Blank(header)
  {
    NoCandidates(Split(header, ' '));
    BlankParts(header, ' ');
  }

  /** A signature that survives printing and parsing. */
  predicate DodoClean(signature: string) {
    signature != "" && ' ' !in signature && !IsSpace(signature[|signature| - 1])
  }

  lemma CandidateIsClean(part: string)
    requires ' ' !in part
    ensures forall c :: c in Candidate(part) ==> DodoClean(c)
  {
    StripMeaning(part);
    var p := Strip(part);
    PartitionMeaning(p, ',');
    var after := Partition(p, ',').1;
    assert after != "" ==> p[|p| - 1] == after[|after| - 1];
    assert forall c :: c in after ==> c in p;
  }

  lemma {:induction false} CandidatesAreClean(parts: seq<string>)
    requires forall i :: 0 <= i < |parts| ==> ' ' !in parts[i]
    ensures forall c :: c in Candidates(parts) ==> DodoClean(c)
  {
    if parts != [] {
      CandidatesAreClean(parts[..|parts| - 1]);
      CandidateIsClean(parts[|parts| - 1]);
    }
  }

  function Printed(signature: string): string {
    "v1," + signature
  }

  lemma CleanIsParsedBack(signature: string)
    requires DodoClean(signature)
    ensures Candidate(Printed(signature)) == [signature]
  {
    var part := Printed(signature);
    StripMeaning(part);
    assert part == "v1" + [','] + signature;
    PartitionAfterPrefix("v1", ',', signature);
  }

  lemma {:induction false} CleanAreParsedBack(signatures: seq<string>)
    requires forall i :: 0 <= i < |signatures| ==> DodoClean(signatures[i])
    ensures Candidates(PrintedAll(signatures)) == signatures
  {
    if signatures != [] {
      var init, last := signatures[..|signatures| - 1], signatures[|signatures| - 1];
      CleanAreParsedBack(init);
      CleanIsParsedBack(last);
      assert PrintedAll(signatures)[..|signatures| - 1] == PrintedAll(init);
      assert signatures == init + [last];
    }
  }

  function PrintedAll(signatures: seq<string>): (r: seq<string>)
    ensures |r| == |signatures|
  {
    seq(|signatures|, i requires 0 <= i < |signatures| => Printed(signatures[i]))
  }

  /** Parsing the printed list returns exactly the printed signatures if and only if each is
      a non-empty text without a space that does not end in white space. */
  lemma DodoHeaderRoundTripsExactly(signatures: seq<string>)
    requires |signatures| > 0
    ensures DodoCandidates(Join(PrintedAll(signatures), ' ')) == signatures
            <==> forall s :: s in signatures ==> DodoClean(s)
  {
    var header := Join(PrintedAll(signatures), ' ');
    JoinUndoesSplit(header, ' ');
    CandidatesAreClean(Split(header, ' '));
    if forall s :: s in signatures ==> DodoClean(s) {
      assert forall i :: 0 <= i < |signatures| ==>
                           PrintedAll(signatures)[i] == "v1," + signatures[i] && signatures[i] in signatures;
      SplitUndoesJoin(PrintedAll(signatures), ' ');
      CleanAreParsedBack(signatures);
    }
  }

  /** Joining two headers with a space joins their candidates. */
  lemma DodoCandidatesJoin(a: string, b: string)
    ensures DodoCandidates(a + " " + b) == DodoCandidates(a) + DodoCandidates(b)
  {
    assert a + " " + b == a + [' '] + b;
    SplitConcat(a, ' ', b);
    CandidatesConcat(Split(a, ' '), Split(b, ' '));
  }

  /** A header printed from clean ASCII signatures is accepted, once everything else checks
      out, exactly when the expected value is one of them. */
  lemma DodoAcceptanceIsMembership(h: DodoHeaders, signatures: seq<string>, secret: string,
                                   mac: (string, string) -> Option<string>, parse: string -> Option<int>, now: real)
    requires |signatures| > 0 && h.signature == Join(PrintedAll(signatures), ' ')
    requires forall s :: s in signatures ==> DodoClean(s) && IsAscii(s)
    requires DodoChecked(h, secret, mac, parse, now)
    ensures DodoAccepts(h, secret, mac, parse, now) <==> mac(h.id, h.timestamp).value in signatures
  {
    DodoHeaderRoundTripsExactly(signatures);
    MatchIsMembership(mac(h.id, h.timestamp).value, signatures);
  }

  /** Secret rotation: appending anything to an accepted signature header, or prepending a
      header of ASCII candidates, keeps it accepted. The signed
      content is the same. */
  lemma DodoAcceptanceIsMonotone(h: DodoHeaders, more: string, secret: string,
                                 mac: (string, string) -> Option<string>, parse: string -> Option<int>, now: real)
    requires DodoAccepts(h, secret, mac, parse, now)
    ensures DodoAccepts(h.(signature := h.signature + " " + more), secret, mac, parse, now)
    ensures AllAscii(DodoCandidates(more)) ==>
              DodoAccepts(h.(signature := more + " " + h.signature), secret, mac, parse, now)
  {
    DodoCandidatesJoin(h.signature, more);
    DodoCandidatesJoin(more, h.signature);
    MatchIsMonotone(mac(h.id, h.timestamp).value, DodoCandidates(more), DodoCandidates(h.signature),
                    DodoCandidates(more));
  }

  // ----- Paddle: a semicolon-delimited list of "key=value" -----

  /** The values of one key, in order. */
  function ValuesOf(parts: seq<string>, key: string): seq<string> {
    if parts == [] then []
    else
      var part := parts[|parts| - 1];
      ValuesOf(parts[..|parts| - 1], key)
      + (if '=' in part && Strip(Partition(part, '=').0) == key then [Strip(Partition(part, '=').1)] else [])
  }

  function PaddleValues(header: string, key: string): seq<string> {
    ValuesOf(Split(header, ';'), key)
  }

  predicate IsComplete(header: string, secret: string) {
    secret != "" && header != "" && PaddleValues(header, "ts") != [] && PaddleValues(header, "h1") != []
  }

  predicate PaddleChecked(header: string, secret: string, parse: string -> Option<int>, now: real) {
    && secret != "" && header != ""
    && PaddleValues(header, "ts") != [] && PaddleValues(header, "h1") != []
    && Timely(PaddleValues(header, "ts")[0], parse, now)
  }

  predicate PaddleAccepts(header: string, secret: string, mac: string -> string, parse: string -> Option<int>,
                          now: real) {
    && PaddleChecked(header, secret, parse, now)
    && Compared(mac(PaddleValues(header, "ts")[0]), PaddleValues(header, "h1")) == Match
  }

  /** A part of the header is a pair when it has an equals sign: what is before the first one
      and what is after it, without the white space around either. */
  lemma PairExactly(part: string, k: string, v: string, key: string)
    ensures '=' !in part ==> ValuesOf([part], key) == []
    ensures '=' !in k && part == k + ['='] + v ==> ValuesOf([part], key) == if Strip(k) == key then [Strip(v)] else []
  {
    assert [part][..0] == [] && ValuesOf([], key) == [];
    if '=' !in k && part == k + ['='] + v {
      PartitionAfterPrefix(k, '=', v);
      assert part[|k|] == '=';
    }
  }

  /** `pairs.get(key, [])`. */
  function Get(pairs: map<string, seq<string>>, key: string): seq<string> {
    if key in pairs then pairs[key] else []
  }

  ghost predicate Collected(pairs: map<string, seq<string>>, parts: seq<string>) {
    forall key :: Get(pairs, key) == ValuesOf(parts, key)
  }

  /** `pairs.setdefault(key.strip(), []).append(value.strip())`. */
  method AddPair(pairs: map<string, seq<string>>, part: string, ghost before: seq<string>)
    returns (r: map<string, seq<string>>)
    requires Collected(pairs, before) && '=' in part
    ensures Collected(r, before + [part])
  {
    r := pairs;
    var (key, value) := Partition(part, '=');
    key, value := Strip(key), Strip(value);
    if key !in r {
      r := r[key := []];
    }
    r := r[key := r[key] + [value]];
    assert (before + [part])[..|before|] == before;
    forall k ensures Get(r, k) == ValuesOf(before + [part], k) {
      assert Get(pairs, k) == ValuesOf(before, k);
      assert Get(r, k) == Get(pairs, k) + (if k == key then [value] else []);
    }
  }

  /** The loop that collects the pairs of the header. */
  method ParsePaddleHeader(header: string) returns (pairs: map<string, seq<string>>)
    ensures forall key :: Get(pairs, key) == PaddleValues(header, key)
  {
    pairs := map[];
    var parts := Split(header, ';');
    for i := 0 to |parts|
      invariant Collected(pairs, parts[..i])
    {
      assert parts[..i + 1] == parts[..i] + [parts[i]];
      if '=' !in parts[i] {
        assert parts[..i + 1][..i] == parts[..i];
        assert forall key :: Get(pairs, key) == ValuesOf(parts[..i], key) == ValuesOf(parts[..i + 1], key);
        continue;
      }
      pairs := AddPair(pairs, parts[i], parts[..i]);
    }
    assert parts[..|parts|] == parts;
  }

  /** `verify_paddle_signature`. `mac` stands for the digest computed over the timestamp as
      written and the body. */
  method VerifyPaddleSignature(header: string, secret: string, mac: string -> string, parse: string -> Option<int>,
                               now: real)
    returns (v: Verdict)
    ensures v == Accepted <==> PaddleAccepts(header, secret, mac, parse, now)
    ensures v == Malformed
            <==> && secret != "" && header != ""
                 && (PaddleValues(header, "ts") == [] || PaddleValues(header, "h1") == [])
    ensures v == NoSecret <==> secret == ""
    ensures v == MissingHeader <==> secret != "" && header == ""
    ensures v == BadTimestamp <==> IsComplete(header, secret) && parse(PaddleValues(header, "ts")[0]).None?
    ensures v == OutsideTolerance
            <==> && IsComplete(header, secret) && parse(PaddleValues(header, "ts")[0]).Some?
                 && !Timely(PaddleValues(header, "ts")[0], parse, now)
    ensures v != BadSecret
    ensures v == Mismatch || v == Untranslated ==>
              && PaddleChecked(header, secret, parse, now)
              && (v == Untranslated
                  <==> Compared(mac(PaddleValues(header, "ts")[0]), PaddleValues(header, "h1")) == Raises)
  {
    if secret == "" {
      return NoSecret;
    }
    if header == "" {
      return MissingHeader;
    }
    var pairs := ParsePaddleHeader(header);
    var timestamps, signatures := Get(pairs, "ts"), Get(pairs, "h1");
    if timestamps == [] || signatures == [] {
      return Malformed;
    }
    var ts := parse(timestamps[0]);
    if ts.None? {
      return BadTimestamp;
    }
    var age := now - ts.value as real;
    if age > TOLERANCE_SECONDS || age < -TOLERANCE_SECONDS {
      return OutsideTolerance;
    }
    var c := CompareAny(mac(timestamps[0]), signatures);
    return match c case Match => Accepted case NoMatch => Mismatch case Raises => Untranslated;
  }

  lemma {:induction false} ValuesConcat(a: seq<string>, b: seq<string>, key: string)
    ensures ValuesOf(a + b, key) == ValuesOf(a, key) + ValuesOf(b, key)
  {
    if b == [] {
      assert a + b == a;
    } else {
      assert (a + b)[..|a + b| - 1] == a + b[..|b| - 1];
      ValuesConcat(a, b[..|b| - 1], key);
    }
  }

  predicate PaddleClean(value: string) {
    ';' !in value && Stripped(value)
  }

  lemma {:induction false} ValuesAreClean(parts: seq<string>, key: string)
    requires forall i :: 0 <= i < |parts| ==> ';' !in parts[i]
    ensures forall v :: v in ValuesOf(parts, key) ==> PaddleClean(v)
  {
    if parts != [] {
      ValuesAreClean(parts[..|parts| - 1], key);
      var part := parts[|parts| - 1];
      PartitionMeaning(part, '=');
      StripMeaning(Partition(part, '=').1);
    }
  }

  function Pair(key: string, value: string): string {
    key + "=" + value
  }

  /** `ts=` with the timestamp, then `h1=` with each signature. */
  function PaddleParts(timestamp: string, signatures: seq<string>): (r: seq<string>)
    ensures |r| == |signatures| + 1
  {
    [Pair("ts", timestamp)] + seq(|signatures|, i requires 0 <= i < |signatures| => Pair("h1", signatures[i]))
  }

  lemma PairIsParsedBack(key: string, value: string, wanted: string)
    requires key == "ts" || key == "h1"
    requires PaddleClean(value)
    ensures ValuesOf([Pair(key, value)], wanted) == if wanted == key then [value] else []
  {
    assert Pair(key, value) == key + ['='] + value;
    PartitionAfterPrefix(key, '=', value);
    StripMeaning(key);
    StripMeaning(value);
    assert [Pair(key, value)][..0] == [];
  }

  lemma AppendedPairIsParsedBack(parts: seq<string>, value: string, wanted: string)
    requires PaddleClean(value)
    ensures ValuesOf(parts + [Pair("h1", value)], wanted)
            == ValuesOf(parts, wanted) + (if wanted == "h1" then [value] else [])
  {
    ValuesConcat(parts, [Pair("h1", value)], wanted);
    PairIsParsedBack("h1", value, wanted);
  }

  lemma PartsOfAppended(timestamp: string, init: seq<string>, last: string)
    ensures PaddleParts(timestamp, init + [last]) == PaddleParts(timestamp, init) + [Pair("h1", last)]
  {
  }

  lemma {:induction false} PartsAreParsedBack(timestamp: string, signatures: seq<string>)
    requires PaddleClean(timestamp) && forall s :: s in signatures ==> PaddleClean(s)
    ensures ValuesOf(PaddleParts(timestamp, signatures), "ts") == [timestamp]
    ensures ValuesOf(PaddleParts(timestamp, signatures), "h1") == signatures
  {
    if signatures == [] {
      assert PaddleParts(timestamp, signatures) == [Pair("ts", timestamp)];
      PairIsParsedBack("ts", timestamp, "ts");
      PairIsParsedBack("ts", timestamp, "h1");
    } else {
      var init, last := signatures[..|signatures| - 1], signatures[|signatures| - 1];
      assert signatures == init + [last];
      PartsAreParsedBack(timestamp, init);
      PartsOfAppended(timestamp, init, last);
      AppendedPairIsParsedBack(PaddleParts(timestamp, init), last, "ts");
      AppendedPairIsParsedBack(PaddleParts(timestamp, init), last, "h1");
    }
  }

  /** Parsing the printed header returns exactly the timestamp and the signatures if and only
      if none of them holds a semicolon or has white space at an end. */
  lemma PaddleHeaderRoundTripsExactly(timestamp: string, signatures: seq<string>)
    ensures var header := Join(PaddleParts(timestamp, signatures), ';');
            PaddleValues(header, "ts") == [timestamp] && PaddleValues(header, "h1") == signatures
            <==> PaddleClean(timestamp) && forall s :: s in signatures ==> PaddleClean(s)
  {
    var parts := PaddleParts(timestamp, signatures);
    var header := Join(parts, ';');
    JoinUndoesSplit(header, ';');
    ValuesAreClean(Split(header, ';'), "ts");
    ValuesAreClean(Split(header, ';'), "h1");
    if PaddleValues(header, "ts") == [timestamp] {
      assert timestamp in PaddleValues(header, "ts");
    }
    if PaddleClean(timestamp) && forall s :: s in signatures ==> PaddleClean(s) {
      PartsAreFree(timestamp, signatures);
      SplitUndoesJoin(parts, ';');
      PartsAreParsedBack(timestamp, signatures);
    }
  }

  lemma PartsAreFree(timestamp: string, signatures: seq<string>)
    requires PaddleClean(timestamp) && forall s :: s in signatures ==> PaddleClean(s)
    ensures forall i :: 0 <= i < |PaddleParts(timestamp, signatures)| ==> ';' !in PaddleParts(timestamp, signatures)[i]
  {
    var parts := PaddleParts(timestamp, signatures);
    forall i | 0 <= i < |parts| ensures ';' !in parts[i] {
      if i > 0 {
        assert parts[i] == "h1=" + signatures[i - 1] && signatures[i - 1] in signatures;
      }
    }
  }

  lemma PaddleValuesJoin(a: string, b: string, key: string)
    ensures PaddleValues(a + ";" + b, key) == PaddleValues(a, key) + PaddleValues(b, key)
  {
    assert a + ";" + b == a + [';'] + b;
    SplitConcat(a, ';', b);
    ValuesConcat(Split(a, ';'), Split(b, ';'), key);
  }

  /** A printed header with ASCII signatures is accepted, the secret being set and the
      timestamp fresh, exactly when the expected digest is one of the signatures. */
  lemma PaddleAcceptanceIsMembership(timestamp: string, signatures: seq<string>, secret: string,
                                     mac: string -> string, parse: string -> Option<int>, now: real)
    requires PaddleClean(timestamp) && forall s :: s in signatures ==> PaddleClean(s) && IsAscii(s)
    requires secret != "" && Timely(timestamp, parse, now)
    ensures PaddleAccepts(Join(PaddleParts(timestamp, signatures), ';'), secret, mac, parse, now)
            <==> mac(timestamp) in signatures
  {
    PaddleHeaderRoundTripsExactly(timestamp, signatures);
    MatchIsMembership(mac(timestamp), signatures);
    var header := Join(PaddleParts(timestamp, signatures), ';');
    assert header != "" by {
      assert PaddleValues("", "ts") == [];
    }
  }

  /** Appending to an accepted header keeps it accepted: the first timestamp still counts,
      and the signatures are only added to. */
  lemma PaddleAcceptanceIsMonotone(header: string, more: string, secret: string,
                                   mac: string -> string, parse: string -> Option<int>, now: real)
    requires PaddleAccepts(header, secret, mac, parse, now)
    ensures PaddleAccepts(header + ";" + more, secret, mac, parse, now)
  {
    PaddleValuesJoin(header, more, "ts");
    PaddleValuesJoin(header, more, "h1");
    var signatures := PaddleValues(header, "h1");
    MatchIsMonotone(mac(PaddleValues(header, "ts")[0]), [], signatures, PaddleValues(more, "h1"));
  }
}
