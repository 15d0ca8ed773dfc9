/** src/internal/form.ts: parsing an `application/x-www-form-urlencoded` body
    into ordered pairs, and folding pairs into a record where the last
    occurrence of a key wins. */
module Form {
  import opened Errors
  import opened Text
  import opened Records
  import opened Encoding

  type FormPair = (string, string)

  /** The `map` callback of parseFormEncoded: split at the first `=` and decode
      both sides; a segment without `=` has the empty value. */
  function ParsePair(segment: string): Result<FormPair> {
    var index := IndexOf(segment, '=');
    if index == -1 then
      var key :- DecodeFormComponent(segment);
      Ok((key, ""))
    else
      var key :- DecodeFormComponent(segment[..index]);
      var value :- DecodeFormComponent(segment[index + 1..]);
      Ok((key, value))
  }

  /** `.filter((pair) => pair.length > 0)`. */
  function NonEmpty(segments: seq<string>): (r: seq<string>)
    ensures forall i | 0 <= i < |r| :: |r[i]| > 0 && r[i] in segments
    decreases |segments|
  {
    if |segments| == 0 then []
    else if |segments[0]| == 0 then NonEmpty(segments[1..])
    else [segments[0]] + NonEmpty(segments[1..])
  }

  /** `.map(...)` over the segments: a decoding error of any segment is thrown. */
  function ParseSegments(segments: seq<string>): (r: Result<seq<FormPair>>)
    ensures r.Ok? ==> |r.value| == |segments|
    ensures r.Ok? ==> forall i | 0 <= i < |segments| :: ParsePair(segments[i]) == Ok(r.value[i])
    ensures r.Err? ==> exists i | 0 <= i < |segments| :: ParsePair(segments[i]).Err?
    decreases |segments|
  {
    if |segments| == 0 then Ok([])
    else
      var pair :- ParsePair(segments[0]);
      var rest := ParseSegments(segments[1..]);
      TailSegments(segments);
      if rest.Err? then Err(rest.error)
      else Ok([pair] + rest.value)
  }

  lemma TailSegments(segments: seq<string>)
    requires |segments| > 0
    ensures forall i | 1 <= i < |segments| :: segments[i] == segments[1..][i - 1]
    ensures forall s | s in segments[1..] :: s in segments
  {
  }

  /** parseFormEncoded (src/internal/form.ts:5-22). */
  function ParseFormEncoded(raw: string): Result<seq<FormPair>> {
    if raw == "" then Ok([]) else ParseSegments(NonEmpty(Split(raw, '&')))
  }

  /** The `reduce` of pairsToRecord, from a given accumulator. */
  function PairsInto(acc: Entries<string>, pairs: seq<FormPair>): Entries<string>
    decreases |pairs|
  {
    if |pairs| == 0 then acc else PairsInto(Put(acc, pairs[0].0, pairs[0].1), pairs[1..])
  }

  /** pairsToRecord (src/internal/form.ts:24-29). */
  function PairsToRecord(pairs: seq<FormPair>): Entries<string> {
    PairsInto([], pairs)
  }

  // ---------------------------------------------------------------------------
  // Parsing

  /** An empty body has no pairs; otherwise the pairs are those of the non-empty
      `&`-segments, one per segment and in order, or the first decoding error. */
  lemma ParseFormEncodedShape(raw: string)
    ensures raw == "" ==> ParseFormEncoded(raw) == Ok([])
    ensures raw != "" && ParseFormEncoded(raw).Ok? ==>
      |ParseFormEncoded(raw).value| == |NonEmpty(Split(raw, '&'))|
    ensures raw != "" && ParseFormEncoded(raw).Ok? ==>
      forall i | 0 <= i < |NonEmpty(Split(raw, '&'))| ::
        ParsePair(NonEmpty(Split(raw, '&'))[i]) == Ok(ParseFormEncoded(raw).value[i])
    ensures raw != "" && ParseFormEncoded(raw).Err? ==>
      exists s | s in Split(raw, '&') && s != "" :: ParsePair(s).Err?
  {
  }

  /** Filtering keeps the order: it distributes over concatenation. */
  lemma {:induction false} NonEmptyConcat(a: seq<string>, b: seq<string>)
    ensures NonEmpty(a + b) == NonEmpty(a) + NonEmpty(b)
    decreases |a|
  {
    if |a| > 0 {
      assert (a + b)[0] == a[0];
      assert (a + b)[1..] == a[1..] + b;
      NonEmptyConcat(a[1..], b);
    } else {
      assert a + b == b;
    }
  }

  /** Filtering drops the empty segments and nothing else. */
  lemma {:induction false} NonEmptyDropsOnlyEmpty(segments: seq<string>)
    ensures NonEmpty(segments + [""]) == NonEmpty(segments)
    ensures forall s | s != "" :: NonEmpty(segments + [s]) == NonEmpty(segments) + [s]
  {
    NonEmptyConcat(segments, [""]);
    forall s | s != "" ensures NonEmpty(segments + [s]) == NonEmpty(segments) + [s] {
      NonEmptyConcat(segments, [s]);
      assert NonEmpty([s]) == [s] + NonEmpty([]);
    }
  }

  /** A segment without `=` is a key with the empty value. */
  lemma ParsePairWithoutEquals(segment: string)
    requires '=' !in segment
    ensures ParsePair(segment) ==
      (match DecodeFormComponent(segment) case Ok(key) => Ok((key, "")) case Err(e) => Err(e))
  {
  }

  /** A segment is split at its first `=`: later `=` characters belong to the value. */
  lemma ParsePairAtFirstEquals(key: string, value: string)
    requires '=' !in key
    ensures ParsePair(key + "=" + value).Ok? <==>
      DecodeFormComponent(key).Ok? && DecodeFormComponent(value).Ok?
    ensures ParsePair(key + "=" + value).Ok? ==>
      ParsePair(key + "=" + value).value ==
        (DecodeFormComponent(key).value, DecodeFormComponent(value).value)
  {
    var s := key + "=" + value;
    assert s[|key|] == '=';
    assert s[..|key|] == key;
    var k := IndexOf(s, '=');
    assert k == |key|;
    assert s[|key| + 1..] == value;
  }

  // ---------------------------------------------------------------------------
  // Round trip with the encoder

  /** A body that posts `pairs` with every key and value written by encodePayfastValue. */
  function EncodeForm(pairs: seq<FormPair>): string {
    Join(EncodeSegments(pairs), "&")
  }

  function EncodeSegments(pairs: seq<FormPair>): (segments: seq<string>)
    ensures |segments| == |pairs|
    ensures forall i | 0 <= i < |pairs| ::
      segments[i] == EncodePayfastValue(pairs[i].0) + "=" + EncodePayfastValue(pairs[i].1)
  {
    seq(|pairs|, i requires 0 <= i < |pairs| =>
      EncodePayfastValue(pairs[i].0) + "=" + EncodePayfastValue(pairs[i].1))
  }

  lemma EncodedSegment(pair: FormPair)
    ensures ParsePair(EncodePayfastValue(pair.0) + "=" + EncodePayfastValue(pair.1)) == Ok(pair)
    ensures '&' !in EncodePayfastValue(pair.0) + "=" + EncodePayfastValue(pair.1)
  {
    var k, v := EncodePayfastValue(pair.0), EncodePayfastValue(pair.1);
    EncodedHasNoSeparators(pair.0);
    EncodedHasNoSeparators(pair.1);
    DecodeEncode(pair.0);
    DecodeEncode(pair.1);
    ParsePairAtFirstEquals(k, v);
  }

  lemma {:induction false} NonEmptyKeepsAll(segments: seq<string>)
    requires forall i | 0 <= i < |segments| :: |segments[i]| > 0
    ensures NonEmpty(segments) == segments
    decreases |segments|
  {
    if |segments| > 0 {
      NonEmptyKeepsAll(segments[1..]);
      assert [segments[0]] + segments[1..] == segments;
    }
  }

  lemma {:induction false} ParseEncodedSegments(pairs: seq<FormPair>)
    ensures ParseSegments(EncodeSegments(pairs)) == Ok(pairs)
    decreases |pairs|
  {
    if |pairs| > 0 {
      EncodedSegment(pairs[0]);
      ParseEncodedSegments(pairs[1..]);
      assert EncodeSegments(pairs)[1..] == EncodeSegments(pairs[1..]);
      assert [pairs[0]] + pairs[1..] == pairs;
    }
  }

  /** Round trip: parseFormEncoded reads back exactly the pairs, in order, of any
      body whose keys and values were written by encodePayfastValue. */
  lemma ParseEncodedForm(pairs: seq<FormPair>)
    ensures ParseFormEncoded(EncodeForm(pairs)) == Ok(pairs)
  {
    var segments := EncodeSegments(pairs);
    if |pairs| > 0 {
      forall i | 0 <= i < |pairs| ensures '&' !in segments[i] && |segments[i]| > 0 {
        EncodedSegment(pairs[i]);
      }
      SplitJoin(segments, '&');
      NonEmptyKeepsAll(segments);
      assert EncodeForm(pairs) != "" by {
        JoinNonEmpty(segments, "&");
      }
      ParseEncodedSegments(pairs);
    }
  }

  lemma {:induction false} JoinNonEmpty(parts: seq<string>, sep: string)
    requires |parts| > 0 && |parts[0]| > 0
    ensures |Join(parts, sep)| > 0
  {
  }

  // ---------------------------------------------------------------------------
  // Folding into a record

  lemma {:induction false} PairsIntoAbsent(acc: Entries<string>, pairs: seq<FormPair>, key: string)
    requires forall j | 0 <= j < |pairs| :: pairs[j].0 != key
    ensures Get(PairsInto(acc, pairs), key) == Get(acc, key)
    decreases |pairs|
  {
    if |pairs| > 0 {
      GetPut(acc, pairs[0].0, pairs[0].1, key);
      PairsIntoAbsent(Put(acc, pairs[0].0, pairs[0].1), pairs[1..], key);
    }
  }

  lemma {:induction false} PairsIntoLast(acc: Entries<string>, pairs: seq<FormPair>, i: nat)
    requires i < |pairs|
    requires forall j | i < j < |pairs| :: pairs[j].0 != pairs[i].0
    ensures Get(PairsInto(acc, pairs), pairs[i].0) == Some(pairs[i].1)
    decreases |pairs|
  {
    var acc' := Put(acc, pairs[0].0, pairs[0].1);
    if i == 0 {
      GetPut(acc, pairs[0].0, pairs[0].1, pairs[0].0);
      PairsIntoAbsent(acc', pairs[1..], pairs[0].0);
    } else {
      PairsIntoLast(acc', pairs[1..], i - 1);
    }
  }

  /** Last wins: a key maps to the value of its last occurrence in the pairs. */
  lemma PairsToRecordLastWins(pairs: seq<FormPair>, i: nat)
    requires i < |pairs|
    requires forall j | i < j < |pairs| :: pairs[j].0 != pairs[i].0
    ensures Get(PairsToRecord(pairs), pairs[i].0) == Some(pairs[i].1)
  {
    PairsIntoLast([], pairs, i);
  }

  /** A key that occurs in no pair is not in the record. */
  lemma PairsToRecordAbsent(pairs: seq<FormPair>, key: string)
    requires forall j | 0 <= j < |pairs| :: pairs[j].0 != key
    ensures Get(PairsToRecord(pairs), key) == None
  {
    PairsIntoAbsent([], pairs, key);
  }

  lemma {:induction false} PairsIntoKeys(acc: Entries<string>, pairs: seq<FormPair>, key: string)
    ensures key in Keys(PairsInto(acc, pairs)) <==>
      key in Keys(acc) || exists j | 0 <= j < |pairs| :: pairs[j].0 == key
    decreases |pairs|
  {
    if |pairs| > 0 {
      var acc' := Put(acc, pairs[0].0, pairs[0].1);
      PutKeys(acc, pairs[0].0, pairs[0].1);
      PairsIntoKeys(acc', pairs[1..], key);
      if exists j | 0 <= j < |pairs| :: pairs[j].0 == key {
        var j :| 0 <= j < |pairs| && pairs[j].0 == key;
        if j > 0 {
          assert pairs[1..][j - 1].0 == key;
        }
      }
    }
  }

  lemma {:induction false} PairsIntoDistinct(acc: Entries<string>, pairs: seq<FormPair>)
    requires DistinctKeys(acc)
    ensures DistinctKeys(PairsInto(acc, pairs))
    decreases |pairs|
  {
    if |pairs| > 0 {
      PutDistinct(acc, pairs[0].0, pairs[0].1);
      PairsIntoDistinct(Put(acc, pairs[0].0, pairs[0].1), pairs[1..]);
    }
  }

  /** The record's keys are exactly the keys of the pairs, each once. */
  lemma PairsToRecordKeys(pairs: seq<FormPair>)
    ensures DistinctKeys(PairsToRecord(pairs))
    ensures forall key :: key in Keys(PairsToRecord(pairs)) <==>
      exists j | 0 <= j < |pairs| :: pairs[j].0 == key
  {
    PairsIntoDistinct([], pairs);
    forall key ensures key in Keys(PairsToRecord(pairs)) <==>
      exists j | 0 <= j < |pairs| :: pairs[j].0 == key
    {
      PairsIntoKeys([], pairs, key);
    }
  }

  lemma JoinTwo(a: string, b: string, sep: string)
    ensures Join([a, b], sep) == a + sep + b
  {
    assert [a, b][1..] == [b];
  }

  /** Two pairs of unreserved text encode to `k1=v1&k2=v2`. */
  lemma TwoPairBody(k1: string, v1: string, k2: string, v2: string)
    requires forall i | 0 <= i < |k1| :: IsUnreserved(k1[i])
    requires forall i | 0 <= i < |v1| :: IsUnreserved(v1[i])
    requires forall i | 0 <= i < |k2| :: IsUnreserved(k2[i])
    requires forall i | 0 <= i < |v2| :: IsUnreserved(v2[i])
    ensures EncodeForm([(k1, v1), (k2, v2)]) == k1 + "=" + v1 + "&" + (k2 + "=" + v2)
  {
    EncodeKeepsUnreserved(k1);
    EncodeKeepsUnreserved(v1);
    EncodeKeepsUnreserved(k2);
    EncodeKeepsUnreserved(v2);
    var segments := EncodeSegments([(k1, v1), (k2, v2)]);
    assert segments == [k1 + "=" + v1, k2 + "=" + v2];
    JoinTwo(k1 + "=" + v1, k2 + "=" + v2, "&");
  }

  lemma ExampleBody(pairs: seq<FormPair>, raw: string)
    requires pairs == [("key", "one"), ("key2", "two")]
    requires raw == "key=one&key2=two"
    ensures EncodeForm(pairs) == raw
  {
    ExampleWordsUnreserved();
    TwoPairBody("key", "one", "key2", "two");
    ExampleBodyText(raw);
  }

  lemma ExampleBodyText(raw: string)
    requires raw == "key=one&key2=two"
    ensures raw == "key" + "=" + "one" + "&" + ("key2" + "=" + "two")
  {
  }

  lemma ExampleWordsUnreserved()
    ensures forall i | 0 <= i < |"key"| :: IsUnreserved("key"[i])
    ensures forall i | 0 <= i < |"one"| :: IsUnreserved("one"[i])
    ensures forall i | 0 <= i < |"key2"| :: IsUnreserved("key2"[i])
    ensures forall i | 0 <= i < |"two"| :: IsUnreserved("two"[i])
  {
  }

  lemma ExampleRecord(pairs: seq<FormPair>)
    requires pairs == [("key", "one"), ("key2", "two")]
    ensures Get(PairsToRecord(pairs), "key") == Some("one")
    ensures Get(PairsToRecord(pairs), "key2") == Some("two")
  {
    PairsToRecordLastWins(pairs, 0);
    PairsToRecordLastWins(pairs, 1);
  }

  /** The example of test/webhook-utils.test.ts:27-31. */
  lemma WebhookUtilsExample(raw: string)
    requires raw == "key=one&key2=two"
    ensures ParseFormEncoded(raw) == Ok([("key", "one"), ("key2", "two")])
    ensures Get(PairsToRecord(ParseFormEncoded(raw).value), "key") == Some("one")
    ensures Get(PairsToRecord(ParseFormEncoded(raw).value), "key2") == Some("two")
  {
    ExampleBody([("key", "one"), ("key2", "two")], raw);
    ParseEncodedForm([("key", "one"), ("key2", "two")]);
    ExampleRecord([("key", "one"), ("key2", "two")]);
  }
}
