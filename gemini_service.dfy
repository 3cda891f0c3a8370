/**
 * The generation services: prompt enrichment, the fan-out over several image
 * attempts with its aggregation, and the data-URI format those images travel in.
 * The remote calls themselves are not modelled: what each call answered is an input.
 */
module GeminiService {
  import opened Wrappers
  import opened Text
  import opened Types

  /** The errors the services throw. */
  datatype GeminiError =
    | ServiceError          // the remote call itself failed
    | NoTranslatorResponse  // the enrichment answer had no text
    | MalformedBrief        // the enrichment text was not JSON
    | NoImagesGenerated     // every image attempt failed
    | InvalidDataUri        // a string is not an image data URI

  // ---------------------------------------------------------------------------
  // Enrichment

  /**
   * What the enrichment call gave back: it threw, or it answered with a text and
   * what `JSON.parse` makes of that text.
   */
  datatype EnrichOutcome = EnrichThrew | EnrichResponded(text: string, parsed: Option<PromptDetails>)

  /** `transformAlbanianPrompt`: the brief, or the error the stage throws. */
  function TransformAlbanianPrompt(e: EnrichOutcome): (r: Result<PromptDetails, GeminiError>)
    ensures r.Success? <==> e.EnrichResponded? && e.text != "" && e.parsed.Some?
    ensures r.Success? ==> r.value == e.parsed.value
    ensures e.EnrichResponded? && e.text == "" ==> r == Failure(NoTranslatorResponse)
  {
    match e
    case EnrichThrew => Failure(ServiceError)
    case EnrichResponded(text, parsed) =>
      if text == "" then Failure(NoTranslatorResponse)
      else if parsed.None? then Failure(MalformedBrief)
      else Success(parsed.value)
  }

  // ---------------------------------------------------------------------------
  // Data URIs

  /** A part's inline payload; an absent MIME type or payload is the empty string. */
  datatype InlineData = InlineData(mimeType: string, data: string)

  const DataPrefix: string := "data:"
  const Base64Marker: string := ";base64,"
  const DefaultMimeType: string := "image/png"

  /** The MIME type written into the URI: the part's own, or PNG when it has none. */
  function EffectiveMimeType(d: InlineData): (m: string)
    ensures m != ""
  {
    if d.mimeType != "" then d.mimeType else DefaultMimeType
  }

  /** The URI an attempt returns for a part with inline data: the payload comes last. */
  function BuildDataUri(d: InlineData): (r: string)
    ensures StartsWith(r, DataPrefix)
    ensures |r| >= |d.data| && r[|r| - |d.data|..] == d.data
  {
    DataPrefix + EffectiveMimeType(d) + Base64Marker + d.data
  }

  /** The characters the regular-expression `.` does not match. */
  predicate IsLineTerminator(c: char) {
    c == '\n' || c == '\r' || c == '\U{2028}' || c == '\U{2029}'
  }

  predicate NoLineTerminator(s: string) {
    forall i :: 0 <= i < |s| ==> !IsLineTerminator(s[i])
  }

  predicate MarkerAt(s: string, p: int) {
    0 <= p && p + |Base64Marker| <= |s| && s[p..p + |Base64Marker|] == Base64Marker
  }

  /**
   * The pattern `^data:(.+);base64,(.+)$` matches `s` with its first group ending
   * at `p`: both groups non-empty, and no line terminator anywhere.
   */
  predicate MatchesAt(s: string, p: int) {
    && StartsWith(s, DataPrefix) && NoLineTerminator(s)
    && |DataPrefix| < p && p + |Base64Marker| < |s| && MarkerAt(s, p)
  }

  /** The largest marker position in `(|DataPrefix|, p]`. */
  function LastMarkerUpTo(s: string, p: int): (r: Option<int>)
    ensures r.Some? ==> |DataPrefix| < r.value <= p && MarkerAt(s, r.value)
    ensures r.Some? ==> forall q :: r.value < q <= p ==> !MarkerAt(s, q)
    ensures r.None? ==> forall q :: |DataPrefix| < q <= p ==> !MarkerAt(s, q)
    decreases p
  {
    if p <= |DataPrefix| then None
    else if MarkerAt(s, p) then Some(p)
    else LastMarkerUpTo(s, p - 1)
  }

  /**
   * The MIME type and payload `generateVideoFromImage` extracts from an image URI.
   * The first group is greedy, so it ends at the last marker that leaves a payload.
   */
  function ParseDataUri(s: string): (r: Result<(string, string), GeminiError>)
    ensures r.Success? <==> exists p :: MatchesAt(s, p)
    ensures r.Failure? ==> r.error == InvalidDataUri
    ensures r.Success? ==> exists p ::
      && MatchesAt(s, p) && (forall q :: p < q ==> !MatchesAt(s, q))
      && r.value == (s[|DataPrefix|..p], s[p + |Base64Marker|..])
  {
    if StartsWith(s, DataPrefix) && NoLineTerminator(s) then
      match LastMarkerUpTo(s, |s| - |Base64Marker| - 1)
      case Some(p) =>
        assert MatchesAt(s, p);
        Success((s[|DataPrefix|..p], s[p + |Base64Marker|..]))
      case None =>
        assert forall p :: !MatchesAt(s, p);
        Failure(InvalidDataUri)
    else
      Failure(InvalidDataUri)
  }

  predicate IsBase64Payload(data: string) {
    data != [] && ';' !in data && NoLineTerminator(data)
  }

  lemma {:induction false} NoLineTerminatorConcat(a: string, b: string)
    requires NoLineTerminator(a) && NoLineTerminator(b)
    ensures NoLineTerminator(a + b)
  {
    forall i | 0 <= i < |a + b| ensures !IsLineTerminator((a + b)[i]) {
      if i < |a| {
        assert (a + b)[i] == a[i];
      } else {
        assert (a + b)[i] == b[i - |a|];
      }
    }
  }

  /** No `;` follows the marker's own `;` in a built URI, so no later marker exists. */
  lemma {:induction false} NoLaterMarker(m: string, data: string)
    requires ';' !in data
    ensures var s := DataPrefix + m + Base64Marker + data;
      forall q :: |DataPrefix| + |m| < q ==> !MarkerAt(s, q)
  {
    var s := DataPrefix + m + Base64Marker + data;
    var p := |DataPrefix| + |m|;
    forall q | p < q ensures !MarkerAt(s, q) {
      if q + |Base64Marker| <= |s| {
        if q < p + |Base64Marker| {
          assert s[q] == Base64Marker[q - p];
        } else {
          assert s[q] == data[q - p - |Base64Marker|];
        }
        assert s[q] != ';';
        assert s[q..q + |Base64Marker|][0] == s[q];
      }
    }
  }

  /**
   * Parsing a URI that an attempt built gives back its MIME type and payload, for a
   * base64 payload and a MIME type without line terminators.
   */
  lemma DataUriRoundTrip(d: InlineData)
    requires IsBase64Payload(d.data) && NoLineTerminator(d.mimeType)
    ensures ParseDataUri(BuildDataUri(d)) == Success((EffectiveMimeType(d), d.data))
  {
    var m := EffectiveMimeType(d);
    var s := BuildDataUri(d);
    var p := |DataPrefix| + |m|;
    assert s == DataPrefix + m + Base64Marker + d.data;
    assert s[..|DataPrefix|] == DataPrefix;
    assert s[p..p + |Base64Marker|] == Base64Marker;
    assert s[|DataPrefix|..p] == m;
    assert s[p + |Base64Marker|..] == d.data;
    assert NoLineTerminator(DefaultMimeType);
    assert NoLineTerminator(DataPrefix) && NoLineTerminator(Base64Marker);
    NoLineTerminatorConcat(DataPrefix, m);
    NoLineTerminatorConcat(DataPrefix + m, Base64Marker);
    NoLineTerminatorConcat(DataPrefix + m + Base64Marker, d.data);
    NoLaterMarker(m, d.data);
    assert MatchesAt(s, p);
  }

  // ---------------------------------------------------------------------------
  // One image attempt

  datatype Part = Part(inlineData: Option<InlineData>)

  /**
   * What one image call gave back: it threw, or it answered, with
   * `candidates[0].content.parts` absent or present.
   */
  datatype AttemptOutcome = AttemptThrew | AttemptResponded(parts: Option<seq<Part>>)

  predicate HasImage(p: Part) {
    p.inlineData.Some? && p.inlineData.value.data != ""
  }

  /** The URI of the first part that carries inline data, if any part does. */
  function FirstImage(parts: seq<Part>): (r: Option<string>)
    ensures r.None? <==> forall i :: 0 <= i < |parts| ==> !HasImage(parts[i])
    ensures r.Some? ==> exists i ::
      && 0 <= i < |parts| && HasImage(parts[i])
      && (forall j :: 0 <= j < i ==> !HasImage(parts[j]))
      && r.value == BuildDataUri(parts[i].inlineData.value)
  {
    if parts == [] then None
    else if HasImage(parts[0]) then Some(BuildDataUri(parts[0].inlineData.value))
    else
      var r := FirstImage(parts[1..]);
      assert r.Some? ==> exists i ::
        && 0 <= i < |parts| && HasImage(parts[i])
        && (forall j :: 0 <= j < i ==> !HasImage(parts[j]))
        && r.value == BuildDataUri(parts[i].inlineData.value) by {
        if r.Some? {
          var i :| && 0 <= i < |parts[1..]| && HasImage(parts[1..][i])
                   && (forall j :: 0 <= j < i ==> !HasImage(parts[1..][j]))
                   && r.value == BuildDataUri(parts[1..][i].inlineData.value);
          assert forall j :: 0 <= j < i + 1 ==> !HasImage(parts[j]) by {
            forall j | 0 <= j < i + 1 ensures !HasImage(parts[j]) {
              if j > 0 { assert parts[j] == parts[1..][j - 1]; }
            }
          }
          assert parts[i + 1] == parts[1..][i];
        }
      }
      r
  }

  /** The value of one attempt: the first image's URI, or none on any failure. */
  function AttemptResult(a: AttemptOutcome): Option<string> {
    match a
    case AttemptThrew => None
    case AttemptResponded(parts) => if parts.None? then None else FirstImage(parts.value)
  }

  /** One attempt's body: scans the parts in order and returns at the first image. */
  method RunAttempt(a: AttemptOutcome) returns (r: Option<string>)
    ensures r == AttemptResult(a)
    ensures r.None? <==>
      || a.AttemptThrew? || a.parts.None?
      || forall i :: 0 <= i < |a.parts.value| ==> !HasImage(a.parts.value[i])
  {
    if a.AttemptThrew? || a.parts.None? {
      return None;
    }
    var parts := a.parts.value;
    var i := 0;
    while i < |parts|
      invariant 0 <= i <= |parts|
      invariant FirstImage(parts[i..]) == FirstImage(parts)
    {
      var part := parts[i];
      if part.inlineData.Some? && part.inlineData.value.data != "" {
        return Some(BuildDataUri(part.inlineData.value));
      }
      assert parts[i..][1..] == parts[i + 1..];
      i := i + 1;
    }
    return None;
  }

  // ---------------------------------------------------------------------------
  // Fan-out and aggregation

  /** The number of variants generated per request. */
  const DefaultCount: nat := 3

  /** `results.filter(img => img !== null)`: the successful results, in attempt order. */
  function ValidImages(results: seq<Option<string>>): (r: seq<string>)
    ensures |r| <= |results|
    ensures r == [] <==> forall i :: 0 <= i < |results| ==> results[i].None?
  {
    if results == [] then []
    else (if results[0].Some? then [results[0].value] else []) + ValidImages(results[1..])
  }

  /** Filtering goes attempt by attempt, so the order of the attempts is kept. */
  lemma {:induction false} ValidImagesAppend(a: seq<Option<string>>, b: seq<Option<string>>)
    ensures ValidImages(a + b) == ValidImages(a) + ValidImages(b)
  {
    if a == [] {
      assert a + b == b;
    } else {
      var head := if a[0].Some? then [a[0].value] else [];
      assert (a + b)[0] == a[0];
      assert (a + b)[1..] == a[1..] + b;
      ValidImagesAppend(a[1..], b);
      calc {
        ValidImages(a + b);
        head + ValidImages(a[1..] + b);
        head + (ValidImages(a[1..]) + ValidImages(b));
        (head + ValidImages(a[1..])) + ValidImages(b);
        ValidImages(a) + ValidImages(b);
      }
    }
  }

  /** Every image in the result is the value of some attempt. */
  lemma {:induction false} ValidImagesFromResults(results: seq<Option<string>>, x: string)
    requires x in ValidImages(results)
    ensures exists i :: 0 <= i < |results| && results[i] == Some(x)
  {
    if results[0] != Some(x) {
      ValidImagesFromResults(results[1..], x);
      var i :| 0 <= i < |results[1..]| && results[1..][i] == Some(x);
      assert results[i + 1] == Some(x);
    }
  }

  /** Attempts 0 and 2 succeed and attempt 1 fails: the result is the two images in that order. */
  lemma ValidImagesKeepsOrder(x: string, z: string)
    ensures ValidImages([Some(x), None, Some(z)]) == [x, z]
  {
    var rs := [Some(x), None, Some(z)];
    assert rs[1..] == [None, Some(z)];
    assert rs[1..][1..] == [Some(z)];
    assert rs[1..][1..][1..] == [];
    assert ValidImages(rs[1..][1..]) == [z];
    assert ValidImages(rs[1..]) == [z];
  }

  /** The per-attempt results in attempt-index order. */
  function Results(attempts: seq<AttemptOutcome>): seq<Option<string>> {
    seq(|attempts|, i requires 0 <= i < |attempts| => AttemptResult(attempts[i]))
  }

  /** What the fan-out stage returns or throws for the given per-attempt outcomes. */
  function ImagesOutcome(attempts: seq<AttemptOutcome>): Result<seq<string>, GeminiError> {
    var valid := ValidImages(Results(attempts));
    if valid == [] then Failure(NoImagesGenerated) else Success(valid)
  }

  /**
   * `generateImagesFromPrompt`: runs `count` attempts (their outcomes given in index
   * order), keeps the successful ones in that order, and throws when none succeeded.
   */
  method GenerateImagesFromPrompt(count: nat, attempts: seq<AttemptOutcome>)
    returns (r: Result<seq<string>, GeminiError>)
    requires |attempts| == count
    ensures r == ImagesOutcome(attempts)
    ensures r.Failure? <==> forall i :: 0 <= i < count ==> AttemptResult(attempts[i]).None?
    ensures r.Failure? ==> r.error == NoImagesGenerated
    ensures r.Success? ==> 0 < |r.value| <= count
  {
    var results: seq<Option<string>> := [];
    var index := 0;
    while index < count
      invariant 0 <= index <= count
      invariant |results| == index
      invariant forall k :: 0 <= k < index ==> results[k] == AttemptResult(attempts[k])
    {
      var img := RunAttempt(attempts[index]);
      results := results + [img];
      index := index + 1;
    }
    assert results == Results(attempts);
    var validImages := ValidImages(results);
    if |validImages| == 0 {
      return Failure(NoImagesGenerated);
    }
    return Success(validImages);
  }
}
