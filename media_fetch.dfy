/**
 * The media type to file extension guess of app/connectors/media_fetch.py
 * (`TwilioMediaFetcher._guess_ext`) and the file name `fetch` gives a voice
 * note. The download itself is not modelled.
 */
module MediaFetch {
  import opened Common

  /** The default `fallback` of `_guess_ext`. */
  const DefaultExt := ".ogg"

  /** The extensions the chain can pick. */
  const Known := [".mp3", ".aac", ".3gp", ".wav", ".ogg"]

  /** `_guess_ext(ct, fallback)`: the lower-cased media type, tested against the keywords in order. */
  function GuessExt(ct: Option<string>, fallback: string): (r: string)
    ensures r in Known || r == fallback
    ensures !NonEmpty(ct) ==> r == fallback
  {
    Chain(Lower(OrEmpty(ct)), fallback)
  }

  /** The chain of tests on the lower-cased media type `s`. */
  function Chain(s: string, fallback: string): (r: string)
    ensures r in Known || r == fallback
    ensures s == "" ==> r == fallback
  {
    if Contains(s, "mpeg") || Contains(s, "mp3") then ".mp3"
    else if Contains(s, "aac") then ".aac"
    else if Contains(s, "3gpp") || Contains(s, "3gp") then ".3gp"
    else if Contains(s, "wav") then ".wav"
    else if Contains(s, "ogg") || Contains(s, "opus") || Contains(s, "application/ogg") then ".ogg"
    else fallback
  }

  /** One step of the chain: any of the keywords selects the extension. */
  datatype Rule = Rule(keywords: seq<string>, ext: string)

  /** The chain as a table, in the order it is tried. */
  const Rules := [
    Rule(["mpeg", "mp3"], ".mp3"),
    Rule(["aac"], ".aac"),
    Rule(["3gpp", "3gp"], ".3gp"),
    Rule(["wav"], ".wav"),
    Rule(["ogg", "opus", "application/ogg"], ".ogg")
  ]

  predicate AnyIn(s: string, keywords: seq<string>)
  {
    keywords != [] && (Contains(s, keywords[0]) || AnyIn(s, keywords[1..]))
  }

  /** The extension of the first rule one of whose keywords occurs in `s`. */
  function FirstMatch(rules: seq<Rule>, s: string, fallback: string): (r: string)
    ensures r == fallback || exists i :: 0 <= i < |rules| && r == rules[i].ext && AnyIn(s, rules[i].keywords)
  {
    if rules == [] then fallback
    else if AnyIn(s, rules[0].keywords) then rules[0].ext
    else FirstMatch(rules[1..], s, fallback)
  }

  /** The chain of `if`s is the first-match reading of the rule table. */
  lemma GuessIsFirstMatch(ct: Option<string>, fallback: string)
    ensures GuessExt(ct, fallback) == FirstMatch(Rules, Lower(OrEmpty(ct)), fallback)
  {
    var s := Lower(OrEmpty(ct));
    var r1 := Rules[1..];
    var r2 := r1[1..];
    var r3 := r2[1..];
    var r4 := r3[1..];
    assert r4 == [Rule(["ogg", "opus", "application/ogg"], ".ogg")];
    assert FirstMatch(r4[1..], s, fallback) == fallback;
    AnyInPair(s, "mpeg", "mp3");
    AnyInPair(s, "3gpp", "3gp");
    AnyInOne(s, "aac");
    AnyInOne(s, "wav");
    AnyInTriple(s, "ogg", "opus", "application/ogg");
    var f4 := if Contains(s, "ogg") || Contains(s, "opus") || Contains(s, "application/ogg") then ".ogg" else fallback;
    assert FirstMatch(r4, s, fallback) == f4;
    var f3 := if Contains(s, "wav") then ".wav" else f4;
    assert r3[0] == Rule(["wav"], ".wav");
    assert FirstMatch(r3, s, fallback) == f3;
    var f2 := if Contains(s, "3gpp") || Contains(s, "3gp") then ".3gp" else f3;
    assert r2[0] == Rule(["3gpp", "3gp"], ".3gp");
    assert FirstMatch(r2, s, fallback) == f2;
    var f1 := if Contains(s, "aac") then ".aac" else f2;
    assert r1[0] == Rule(["aac"], ".aac");
    assert FirstMatch(r1, s, fallback) == f1;
    assert Rules[0] == Rule(["mpeg", "mp3"], ".mp3");
    assert FirstMatch(Rules, s, fallback) == if Contains(s, "mpeg") || Contains(s, "mp3") then ".mp3" else f1;
  }

  lemma AnyInOne(s: string, a: string)
    ensures AnyIn(s, [a]) <==> Contains(s, a)
  {
    assert [a][1..] == [];
  }

  lemma AnyInPair(s: string, a: string, b: string)
    ensures AnyIn(s, [a, b]) <==> Contains(s, a) || Contains(s, b)
  {
    assert [a, b][1..] == [b];
    AnyInOne(s, b);
  }

  lemma AnyInTriple(s: string, a: string, b: string, c: string)
    ensures AnyIn(s, [a, b, c]) <==> Contains(s, a) || Contains(s, b) || Contains(s, c)
  {
    assert [a, b, c][1..] == [b, c];
    AnyInPair(s, b, c);
  }

  /** The "3gpp" and "application/ogg" tests can never decide anything: "3gp" and "ogg" already cover them. */
  lemma RedundantKeywords(s: string)
    ensures Contains(s, "3gpp") ==> Contains(s, "3gp")
    ensures Contains(s, "application/ogg") ==> Contains(s, "ogg")
  {
    if Contains(s, "3gpp") {
      assert "3gpp"[0..3] == "3gp";
      ContainsAt("3gpp", "3gp", 0);
      ContainsTransitive(s, "3gpp", "3gp");
    }
    if Contains(s, "application/ogg") {
      assert "application/ogg"[12..15] == "ogg";
      ContainsAt("application/ogg", "ogg", 12);
      ContainsTransitive(s, "application/ogg", "ogg");
    }
  }

  /** The guess ignores letter case: upper-casing or lower-casing the media type changes nothing. */
  lemma GuessIgnoresCase(ct: string, fallback: string)
    ensures GuessExt(Some(Upper(ct)), fallback) == GuessExt(Some(ct), fallback)
    ensures GuessExt(Some(Lower(ct)), fallback) == GuessExt(Some(ct), fallback)
  {
    LowerOfUpper(ct);
    LowerIdempotent(ct);
    assert Lower(OrEmpty(Some(Upper(ct)))) == Lower(ct);
    assert Lower(OrEmpty(Some(Lower(ct)))) == Lower(ct);
  }

  /** The form of the webhook: `None` is a field that is present but null. */
  type Form = map<string, Option<string>>

  /** `form.get("MediaContentType0", "") or ""` */
  function ContentType(form: Form): string
  {
    if "MediaContentType0" in form then OrEmpty(form["MediaContentType0"]) else ""
  }

  /** The `filename` of the payload `fetch` returns. */
  function FetchFilename(form: Form): (r: string)
    ensures |r| > 4 && r[..4] == "note" && r[4..] in Known
    ensures ContentType(form) == "" ==> r == "note" + DefaultExt
  {
    var ext := GuessExt(Some(ContentType(form)), DefaultExt);
    "note" + ext
  }
}
