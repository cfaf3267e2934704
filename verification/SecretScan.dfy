/**
 The chunked secret scan of `scripts/offboard_client.py`. A rule is a plain language of byte
 strings, without look-around; `Finds` is a regular-expression search over such a language.
 */
module SecretScan {

  type Byte = bv8

  datatype Rule = Rule(name: string, language: seq<Byte> -> bool)

  datatype Hit = Hit(path: string, rule: string)

  const OVERLAP := 128

  predicate OccursAt(r: Rule, data: seq<Byte>, i: int, j: int) {
    0 <= i <= j <= |data| && r.language(data[i..j])
  }

  predicate Finds(r: Rule, data: seq<Byte>) {
    exists i, j | 0 <= i <= j <= |data| :: OccursAt(r, data, i, j)
  }

  /** `scan_bytes`: the whole buffer at once. */
  function ScanBytes(path: string, data: seq<Byte>, rules: seq<Rule>): seq<Hit> {
    if rules == [] then []
    else (if Finds(rules[0], data) then [Hit(path, rules[0].name)] else []) + ScanBytes(path, data, rules[1..])
  }

  function Joined(chunks: seq<seq<Byte>>): seq<Byte> {
    if chunks == [] then [] else Joined(chunks[..|chunks| - 1]) + chunks[|chunks| - 1]
  }

  /** The last `OVERLAP` bytes, or all of them. */
  function Carry(data: seq<Byte>): seq<Byte> {
    if |data| > OVERLAP then data[|data| - OVERLAP..] else data
  }

  /** The windows searched as the reads arrive: each read behind the carry of all before it. */
  function Windows(chunks: seq<seq<Byte>>): (windows: seq<seq<Byte>>)
    ensures |windows| == |chunks|
  {
    if chunks == [] then []
    else
      var init := chunks[..|chunks| - 1];
      Windows(init) + [Carry(Joined(init)) + chunks[|chunks| - 1]]
  }

  lemma {:induction false} WindowAt(chunks: seq<seq<Byte>>, k: nat)
    requires k < |chunks|
    ensures Windows(chunks)[k] == Carry(Joined(chunks[..k])) + chunks[k]
    decreases |chunks|
  {
    if k < |chunks| - 1 {
      WindowAt(chunks[..|chunks| - 1], k);
      assert chunks[..|chunks| - 1][..k] == chunks[..k];
    }
  }

  predicate FoundIn(r: Rule, windows: seq<seq<Byte>>) {
    exists w | w in windows :: Finds(r, w)
  }

  /** What makes the scan report a rule: some read's window contains an occurrence. */
  predicate Reported(r: Rule, chunks: seq<seq<Byte>>) {
    FoundIn(r, Windows(chunks))
  }

  predicate DistinctNames(rules: seq<Rule>) {
    forall i, j | 0 <= i < j < |rules| :: rules[i].name != rules[j].name
  }

  /** The first read, from the k-th on, that yields nothing. */
  function EndOfStream(stream: seq<seq<Byte>>, k: nat): (end: nat)
    requires k <= |stream|
    ensures k <= end <= |stream|
    decreases |stream| - k
  {
    if k == |stream| || stream[k] == [] then k else EndOfStream(stream, k + 1)
  }

  /** The chunks a stream delivers. */
  function Delivered(stream: seq<seq<Byte>>): seq<seq<Byte>> {
    stream[..EndOfStream(stream, 0)]
  }

  /** `scan_stream`: a read loop that keeps the tail of each window. */
  method ScanStream(path: string, stream: seq<seq<Byte>>, rules: seq<Rule>) returns (hits: seq<Hit>)
    requires DistinctNames(rules)
    ensures forall i | 0 <= i < |rules| :: Hit(path, rules[i].name) in hits <==> Reported(rules[i], Delivered(stream))
    ensures forall h | h in hits :: h.path == path && NamesRule(rules, h.rule)
    ensures forall i, j | 0 <= i < j < |hits| :: hits[i] != hits[j]
  {
    hits := [];
    var found: set<string> := {};
    var carry := [];
    var k := 0;
    assert stream[..0] == [];
    while k < |stream| && stream[k] != []
      invariant 0 <= k <= |stream|
      invariant EndOfStream(stream, 0) == EndOfStream(stream, k)
      invariant carry == Carry(Joined(stream[..k]))
      invariant HitsOk(path, rules, hits, found)
      invariant FoundAreReported(rules, found, Windows(stream[..k]))
    {
      var window := carry + stream[k];
      ghost var before := found;
      found, hits := ScanWindow(path, window, rules, found, hits);
      ReadStep(rules, before, found, stream, k);
      carry := Carry(window);
      k := k + 1;
    }
    HitsReport(path, rules, hits, found, Delivered(stream));
  }

  lemma HitsReport(path: string, rules: seq<Rule>, hits: seq<Hit>, found: set<string>, chunks: seq<seq<Byte>>)
    requires HitsOk(path, rules, hits, found) && FoundAreReported(rules, found, Windows(chunks))
    ensures forall i | 0 <= i < |rules| :: Hit(path, rules[i].name) in hits <==> Reported(rules[i], chunks)
    ensures forall h | h in hits :: h.path == path && NamesRule(rules, h.rule)
  {
  }

  ghost predicate FoundAreReported(rules: seq<Rule>, found: set<string>, windows: seq<seq<Byte>>) {
    forall m | 0 <= m < |rules| :: rules[m].name in found <==> FoundIn(rules[m], windows)
  }

  lemma FoundStep(rules: seq<Rule>, found: set<string>, found': set<string>, windows: seq<seq<Byte>>,
                  window: seq<Byte>)
    requires FoundAreReported(rules, found, windows)
    requires forall m | 0 <= m < |rules| ::
               rules[m].name in found' <==> rules[m].name in found || Finds(rules[m], window)
    ensures FoundAreReported(rules, found', windows + [window])
  {
  }

  /** What one read of the loop establishes. */
  lemma ReadStep(rules: seq<Rule>, found: set<string>, found': set<string>, stream: seq<seq<Byte>>, k: nat)
    requires k < |stream| && FoundAreReported(rules, found, Windows(stream[..k]))
    requires
      var window := Carry(Joined(stream[..k])) + stream[k];
      forall m | 0 <= m < |rules| :: rules[m].name in found' <==> rules[m].name in found || Finds(rules[m], window)
    ensures FoundAreReported(rules, found', Windows(stream[..k + 1]))
    ensures Carry(Carry(Joined(stream[..k])) + stream[k]) == Carry(Joined(stream[..k + 1]))
  {
    var window := Carry(Joined(stream[..k])) + stream[k];
    PrefixStep(stream, k);
    FoundStep(rules, found, found', Windows(stream[..k]), window);
    CarryStep(Joined(stream[..k]), stream[k]);
  }

  lemma PrefixStep(chunks: seq<seq<Byte>>, k: nat)
    requires k < |chunks|
    ensures Joined(chunks[..k + 1]) == Joined(chunks[..k]) + chunks[k]
    ensures Windows(chunks[..k + 1]) == Windows(chunks[..k]) + [Carry(Joined(chunks[..k])) + chunks[k]]
  {
    assert chunks[..k + 1][..k] == chunks[..k];
  }

  /** The inner loop: every rule not yet found is searched for in the window. */
  method ScanWindow(path: string, window: seq<Byte>, rules: seq<Rule>, found: set<string>, hits: seq<Hit>)
    returns (found': set<string>, hits': seq<Hit>)
    requires DistinctNames(rules) && HitsOk(path, rules, hits, found)
    ensures HitsOk(path, rules, hits', found')
    ensures forall m | 0 <= m < |rules| ::
              rules[m].name in found' <==> rules[m].name in found || Finds(rules[m], window)
  {
    found', hits' := found, hits;
    for i := 0 to |rules|
      invariant HitsOk(path, rules, hits', found')
      invariant forall m | 0 <= m < i :: rules[m].name in found' <==> rules[m].name in found || Finds(rules[m], window)
      invariant forall m | i <= m < |rules| :: rules[m].name in found' <==> rules[m].name in found
    {
      if rules[i].name !in found' && Finds(rules[i], window) {
        found' := found' + {rules[i].name};
        hits' := hits' + [Hit(path, rules[i].name)];
      }
    }
  }

  /** The hits are the found rules, each once. */
  ghost predicate HitsOk(path: string, rules: seq<Rule>, hits: seq<Hit>, found: set<string>) {
    && (forall i, j | 0 <= i < j < |hits| :: hits[i] != hits[j])
    && (forall h | h in hits :: h.path == path && h.rule in found)
    && (forall name | name in found :: Hit(path, name) in hits && NamesRule(rules, name))
  }

  predicate NamesRule(rules: seq<Rule>, name: string) {
    exists i :: 0 <= i < |rules| && rules[i].name == name
  }

  lemma CarryStep(data: seq<Byte>, chunk: seq<Byte>)
    ensures Carry(Carry(data) + chunk) == Carry(data + chunk)
  {
  }

  lemma SliceOfSlice(data: seq<Byte>, from: nat, to: nat, i: nat, j: nat)
    requires from <= i <= j <= to <= |data|
    ensures data[from..to][i - from..j - from] == data[i..j]
  {
    var (part, whole) := (data[from..to][i - from..j - from], data[i..j]);
    assert |part| == |whole| && forall m | 0 <= m < |part| :: part[m] == whole[m];
  }

  lemma SliceFinds(r: Rule, data: seq<Byte>, from: nat, to: nat, i: nat, j: nat)
    requires from <= i <= j <= to <= |data| && OccursAt(r, data, i, j)
    ensures Finds(r, data[from..to])
  {
    SliceOfSlice(data, from, to, i, j);
    assert OccursAt(r, data[from..to], i - from, j - from);
  }

  lemma FoundInSlice(r: Rule, data: seq<Byte>, from: nat, to: nat) returns (i: nat, j: nat)
    requires from <= to <= |data| && Finds(r, data[from..to])
    ensures from <= i <= j <= to && OccursAt(r, data, i, j)
  {
    var p, q :| 0 <= p <= q <= to - from && OccursAt(r, data[from..to], p, q);
    i, j := from + p, from + q;
    SliceOfSlice(data, from, to, i, j);
  }

  lemma OccurrenceNotEmpty(r: Rule, data: seq<Byte>, i: int, j: int)
    requires !r.language([]) && OccursAt(r, data, i, j)
    ensures i < j
  {
  }

  /** Where the k-th window sits in the whole stream. */
  lemma WindowIsSlice(chunks: seq<seq<Byte>>, k: nat) returns (from: nat, to: nat)
    requires k < |chunks|
    ensures to == |Joined(chunks[..k])| + |chunks[k]| <= |Joined(chunks)|
    ensures from == if |Joined(chunks[..k])| > OVERLAP then |Joined(chunks[..k])| - OVERLAP else 0
    ensures from <= to && Windows(chunks)[k] == Joined(chunks)[from..to]
  {
    WindowAt(chunks, k);
    JoinedPrefix(chunks, k + 1);
    PrefixStep(chunks, k);
    from, to := CarryIsSlice(Joined(chunks), Joined(chunks[..k]), chunks[k]);
  }

  lemma CarryIsSlice(whole: seq<Byte>, head: seq<Byte>, chunk: seq<Byte>) returns (from: nat, to: nat)
    requires head + chunk <= whole
    ensures to == |head| + |chunk| <= |whole| && from == if |head| > OVERLAP then |head| - OVERLAP else 0
    ensures from <= to && Carry(head) + chunk == whole[from..to]
  {
    to := |head| + |chunk|;
    from := if |head| > OVERLAP then |head| - OVERLAP else 0;
    assert whole[..to] == head + chunk;
    assert whole[from..to] == whole[..to][from..];
  }

  lemma {:induction false} JoinedPrefix(chunks: seq<seq<Byte>>, k: nat)
    requires k <= |chunks|
    ensures Joined(chunks[..k]) <= Joined(chunks)
    decreases |chunks|
  {
    if k < |chunks| {
      JoinedPrefix(chunks[..|chunks| - 1], k);
      assert chunks[..|chunks| - 1][..k] == chunks[..k];
    } else {
      assert chunks[..k] == chunks;
    }
  }

  /** The read that delivers byte `p`. */
  lemma {:induction false} ReadOf(chunks: seq<seq<Byte>>, p: nat) returns (k: nat)
    requires p < |Joined(chunks)|
    ensures k < |chunks| && |Joined(chunks[..k])| <= p < |Joined(chunks[..k])| + |chunks[k]|
    decreases |chunks|
  {
    var last := |chunks| - 1;
    if p < |Joined(chunks[..last])| {
      k := ReadOf(chunks[..last], p);
      assert chunks[..last][..k] == chunks[..k];
    } else {
      k := last;
    }
  }

  /** Soundness: whatever is reported truly occurs in the stream. */
  lemma ReportedOccurs(r: Rule, chunks: seq<seq<Byte>>)
    requires Reported(r, chunks)
    ensures Finds(r, Joined(chunks))
  {
    var k :| 0 <= k < |chunks| && Finds(r, Windows(chunks)[k]);
    var i, j := WindowOccurs(r, chunks, k);
  }

  /** An occurrence that begins no more than `OVERLAP` bytes before the read that completes it
      lies in that read's window. */
  lemma SeenInWindow(r: Rule, chunks: seq<seq<Byte>>, i: nat, j: nat, k: nat)
    requires i < j && OccursAt(r, Joined(chunks), i, j) && k < |chunks|
    requires i + OVERLAP >= |Joined(chunks[..k])| && j <= |Joined(chunks[..k])| + |chunks[k]|
    ensures Reported(r, chunks)
  {
    var from, to := WindowIsSlice(chunks, k);
    SliceFinds(r, Joined(chunks), from, to, i, j);
    assert Windows(chunks)[k] in Windows(chunks);
  }

  /** Every finding in a window comes from an occurrence that its read completes or carries. */
  lemma WindowOccurs(r: Rule, chunks: seq<seq<Byte>>, k: nat) returns (i: nat, j: nat)
    requires k < |chunks| && Finds(r, Windows(chunks)[k])
    ensures i <= j <= |Joined(chunks)| && OccursAt(r, Joined(chunks), i, j)
    ensures i + OVERLAP >= |Joined(chunks[..k])| && j <= |Joined(chunks[..k])| + |chunks[k]|
  {
    var from, to := WindowIsSlice(chunks, k);
    i, j := FoundInSlice(r, Joined(chunks), from, to);
  }

  /** Completeness: a non-empty occurrence of at most 129 bytes is reported, however
      the chunks split the stream. */
  lemma ShortOccurrenceReported(r: Rule, chunks: seq<seq<Byte>>, i: nat, j: nat)
    requires i < j && OccursAt(r, Joined(chunks), i, j) && j - i <= 129
    ensures Reported(r, chunks)
  {
    var k := ReadOf(chunks, j - 1);
    SeenInWindow(r, chunks, i, j, k);
  }

  /** Exactly which occurrences a given split reports: those that begin no more than 128
      bytes before the read that delivers their last byte. */
  lemma ReportedIff(r: Rule, chunks: seq<seq<Byte>>)
    requires !r.language([])
    ensures Reported(r, chunks) <==>
            exists i, j, k :: 0 <= k < |chunks| && 0 <= i < j <= |Joined(chunks)| && OccursAt(r, Joined(chunks), i, j)
                              && i + 128 >= |Joined(chunks[..k])| && j <= |Joined(chunks[..k])| + |chunks[k]|
  {
    if Reported(r, chunks) {
      var k :| 0 <= k < |chunks| && Finds(r, Windows(chunks)[k]);
      var i, j := WindowOccurs(r, chunks, k);
      OccurrenceNotEmpty(r, Joined(chunks), i, j);
    }
    if i, j, k :| 0 <= k < |chunks| && 0 <= i < j <= |Joined(chunks)| && OccursAt(r, Joined(chunks), i, j)
                  && i + OVERLAP >= |Joined(chunks[..k])| && j <= |Joined(chunks[..k])| + |chunks[k]| {
      SeenInWindow(r, chunks, i, j, k);
    }
  }

  /** Every word of the rule's language is short enough for the overlap. */
  ghost predicate Short(r: Rule) {
    !r.language([]) && forall w | r.language(w) :: |w| <= 129
  }

  /** For short rules the chunked scan reports exactly what the whole-buffer scan reports,
      whatever the read sizes. */
  lemma ChunkedRefinesWhole(path: string, r: Rule, chunks: seq<seq<Byte>>)
    requires Short(r)
    ensures Reported(r, chunks) <==> Hit(path, r.name) in ScanBytes(path, Joined(chunks), [r])
  {
    assert [r][1..] == [];
    if Reported(r, chunks) {
      ReportedOccurs(r, chunks);
    }
    if Finds(r, Joined(chunks)) {
      var i, j :| 0 <= i <= j <= |Joined(chunks)| && OccursAt(r, Joined(chunks), i, j);
      OccurrenceNotEmpty(r, Joined(chunks), i, j);
      ShortOccurrenceReported(r, chunks, i, j);
    }
  }

  /** The bound is tight: a word one byte longer is missed when a read boundary leaves only its
      last byte behind. */
  lemma LongOccurrenceMissed(word: seq<Byte>)
    requires |word| == 130
    ensures
      var r := Rule("long", w => w == word);
      var chunks := [word[..OVERLAP + 1], word[OVERLAP + 1..]];
      Finds(r, Joined(chunks)) && !Reported(r, chunks)
  {
    var r := Rule("long", w => w == word);
    var chunks := [word[..OVERLAP + 1], word[OVERLAP + 1..]];
    assert chunks[..2] == chunks && chunks[..1] == [chunks[0]] && chunks[..0] == [] && [chunks[0]][..0] == [];
    assert Joined([chunks[0]]) == chunks[0];
    assert Joined(chunks) == chunks[0] + chunks[1] == word;
    assert word[0..|word|] == word;
    assert OccursAt(r, Joined(chunks), 0, |word|);
    WindowAt(chunks, 0);
    WindowAt(chunks, 1);
    assert |Windows(chunks)[0]| == OVERLAP + 1 && |Windows(chunks)[1]| == OVERLAP + 1;
  }

  /** What a stream delivers: its reads up to the first empty one. */
  lemma {:induction false} EndsAtFirstEmpty(stream: seq<seq<Byte>>, k: nat)
    requires k <= |stream|
    ensures
      var end := EndOfStream(stream, k);
      (forall i | k <= i < end :: stream[i] != []) && (end < |stream| ==> stream[end] == [])
    decreases |stream| - k
  {
    if k < |stream| && stream[k] != [] {
      EndsAtFirstEmpty(stream, k + 1);
    }
  }

  lemma DeliveredIff(stream: seq<seq<Byte>>, n: nat)
    requires n <= |stream|
    ensures Delivered(stream) == stream[..n] <==>
              (forall i | 0 <= i < n :: stream[i] != []) && (n < |stream| ==> stream[n] == [])
  {
    EndsAtFirstEmpty(stream, 0);
    var end := EndOfStream(stream, 0);
    if Delivered(stream) == stream[..n] { assert |stream[..n]| == n == end; }
  }
}
