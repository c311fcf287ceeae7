/** The per-facility classifier shared by both dashboards: from the result of
    one HTTP request it picks one of four outcomes, and from the outcome it
    derives the `Places` and `Statut` fields every record carries. */
module Scrape {
  import opened Wrappers
  import opened Decimal
  import opened Markup

  /** What `requests.get(...)` gave: a response body, or an exception. */
  datatype Fetch = Fetched(text: string) | Failed

  /** One facility's observation in a sweep: what its request gave, and the
      clock reading (`%H:%M:%S` in Europe/Paris) taken when its record was built. */
  datatype Probe = Probe(fetch: Fetch, stamp: string)

  /** The four branches of the classifier: numeric match, textual match only,
      no match, exception. */
  datatype Outcome = Available(n: nat) | Message(phrase: string) | NoData | FetchError

  const Open := "\U{2705} Ouvert"
  const WarningPrefix := "\U{26A0}\U{FE0F} "
  const NoDataStatut := "\U{2753} Pas de donn\U{E9}es"
  const ErrorStatut := "\U{274C} Erreur"

  /** The `try` body with its `if`/`elif`/`else`, and the `except` branch. The
      `except` branch catches the failed request and also the `ValueError` that
      `int()` raises on a capture longer than `MaxStrDigits`. */
  function Classify(f: Fetch): (o: Outcome)
  {
    match f
    case Failed => FetchError
    case Fetched(t) =>
      match Search(t, Numeric)
      case Some(m) =>
        if |m.capture| > MaxStrDigits then FetchError
        else Available(ParseDigits(m.capture))
      case None =>
        match Search(t, Textual)
        case Some(m) => Message(m.capture)
        case None => NoData
  }

  /** The `Places` field: the parsed number, or 0 in the three other branches. */
  function PlacesOf(o: Outcome): (places: nat) {
    if o.Available? then o.n else 0
  }

  /** The `Statut` field. */
  function StatutOf(o: Outcome): (statut: string) {
    match o
    case Available(_) => Open
    case Message(s) => WarningPrefix + s
    case NoData => NoDataStatut
    case FetchError => ErrorStatut
  }

  /** Reads the outcome back from the `Places` and `Statut` fields of a record. */
  function Recover(places: nat, statut: string): (o: Outcome) {
    if statut == Open then Available(places)
    else if |statut| >= |WarningPrefix| && statut[..|WarningPrefix|] == WarningPrefix then
      Message(statut[|WarningPrefix|..])
    else if statut == NoDataStatut then NoData
    else FetchError
  }

  /** The two fields determine the branch that produced them. */
  lemma RecoverOutcome(o: Outcome)
    ensures Recover(PlacesOf(o), StatutOf(o)) == o
  {
    match o
    case Available(_) =>
    case Message(s) =>
      var st := WarningPrefix + s;
      assert st[0] != Open[0];
      assert st[..|WarningPrefix|] == WarningPrefix;
    case NoData =>
      assert NoDataStatut[0] != Open[0] && NoDataStatut[0] != WarningPrefix[0];
    case FetchError =>
      assert ErrorStatut[0] != Open[0] && ErrorStatut[0] != WarningPrefix[0];
      assert ErrorStatut[0] != NoDataStatut[0];
  }

  /** A record says `Ouvert` exactly when the numeric pattern matched, and only
      then can `Places` be non-zero. */
  lemma OpenIffAvailable(o: Outcome)
    ensures StatutOf(o) == Open <==> o.Available?
    ensures PlacesOf(o) != 0 ==> StatutOf(o) == Open
  {
    RecoverOutcome(o);
  }

  /** A failed request is an error, whatever the page would have said. */
  lemma FailedIsError()
    ensures Classify(Failed) == FetchError
    ensures PlacesOf(Classify(Failed)) == 0 && StatutOf(Classify(Failed)) == ErrorStatut
  {
  }

  /** The numeric branch is taken exactly when the numeric expression matches
      somewhere and its leftmost match has at most `MaxStrDigits` digits. */
  lemma ClassifyAvailable(t: string)
    ensures Classify(Fetched(t)).Available? <==>
              exists i: nat, k: nat, e: nat :: IsLeftmost(t, i, k, e, Numeric) && e - (k + 1) <= MaxStrDigits
  {
    NumericLeftmost(t);
    var o := Classify(Fetched(t));
    var r := Search(t, Numeric);
    if r.Some? {
      var k: nat, e: nat := LeftmostOfSearch(t, Numeric);
      if |r.value.capture| <= MaxStrDigits {
        assert o.Available?;
      } else {
        assert o == FetchError;
      }
    } else {
      assert o.Message? || o == NoData;
    }
  }

  /** In the numeric branch the number is the value of the digits of the leftmost match. */
  lemma ClassifyCount(t: string)
    requires Classify(Fetched(t)).Available?
    ensures exists i: nat, k: nat, e: nat ::
              && IsLeftmost(t, i, k, e, Numeric)
              && AllDigits(t[k + 1..e])
              && Classify(Fetched(t)).n == ParseDigits(t[k + 1..e])
  {
    var r := Search(t, Numeric);
    assert r.Some?;
    var k: nat, e: nat := LeftmostOfSearch(t, Numeric);
    assert Classify(Fetched(t)).n == ParseDigits(t[k + 1..e]);
  }

  /** A fetched page lands in the `except` branch exactly when its leftmost
      numeric match is too long for `int()`. */
  lemma ClassifyDigitLimit(t: string)
    ensures Classify(Fetched(t)) == FetchError <==>
              exists i: nat, k: nat, e: nat :: IsLeftmost(t, i, k, e, Numeric) && e - (k + 1) > MaxStrDigits
  {
    NumericLeftmost(t);
  }

  /** What the numeric search reports, stated through the leftmost match. */
  lemma NumericLeftmost(t: string)
    ensures Search(t, Numeric).None? <==> forall i: nat, k: nat, e: nat :: !IsLeftmost(t, i, k, e, Numeric)
    ensures forall i: nat, k: nat, e: nat :: IsLeftmost(t, i, k, e, Numeric) ==>
              Search(t, Numeric) == Some(Found(i, t[k + 1..e]))
  {
    SearchCorrect(t, Numeric);
    var r := Search(t, Numeric);
    if r.Some? {
      var k: nat, e: nat :| IsMatch(t, r.value.pos, k, e, Numeric) && r.value.capture == t[k + 1..e];
      assert IsLeftmost(t, r.value.pos, k, e, Numeric);
    }
    forall i: nat, k: nat, e: nat | IsLeftmost(t, i, k, e, Numeric)
      ensures Search(t, Numeric) == Some(Found(i, t[k + 1..e]))
    {
      SearchIsLeftmost(t, Numeric, i, k, e);
    }
  }

  /** The textual branch is taken exactly when the numeric expression matches
      nowhere and the textual one somewhere; its phrase is then non-empty, free
      of `<`, not made of digits only, and is the leftmost textual capture. */
  lemma ClassifyMessage(t: string)
    ensures Classify(Fetched(t)).Message? <==>
              (forall i: nat, k: nat, e: nat :: !IsMatch(t, i, k, e, Numeric)) &&
              (exists i: nat, k: nat, e: nat :: IsMatch(t, i, k, e, Textual))
    ensures Classify(Fetched(t)).Message? ==>
              var s := Classify(Fetched(t)).phrase;
              && |s| >= 1
              && (forall m :: 0 <= m < |s| ==> s[m] != '<')
              && !AllDigits(s)
              && exists i: nat, k: nat, e: nat :: IsLeftmost(t, i, k, e, Textual) && s == t[k + 1..e]
  {
    SearchCorrect(t, Numeric);
    SearchCorrect(t, Textual);
    var r := Search(t, Textual);
    if Search(t, Numeric).None? && r.Some? {
      TextualOnlyCapture(t);
      var k: nat, e: nat :| IsMatch(t, r.value.pos, k, e, Textual) && r.value.capture == t[k + 1..e];
      assert IsLeftmost(t, r.value.pos, k, e, Textual);
    }
  }

  /** The "no data" branch is taken exactly when neither expression matches. */
  lemma ClassifyNoData(t: string)
    ensures Classify(Fetched(t)) == NoData <==>
              (forall i: nat, k: nat, e: nat :: !IsMatch(t, i, k, e, Numeric)) &&
              (forall i: nat, k: nat, e: nat :: !IsMatch(t, i, k, e, Textual))
  {
    SearchCorrect(t, Numeric);
    SearchCorrect(t, Textual);
    if Search(t, Numeric).Some? {
      NumericSearchIsTextual(t);
    }
  }
}
