/** The collector of the dashboard with the map: its records also carry the
    capacity, a display string and the coordinates, and the map colours each
    marker by the share of free places. */
module MapDashboard {
  import opened Wrappers
  import opened Decimal
  import opened Markup
  import opened Scrape
  import opened Snapshots
  import opened Store
  import opened Summary
  import opened Collector

  /** A configuration tuple: base URL, `page_id`, capacity, latitude, longitude. */
  datatype Facility = Facility(baseUrl: string, pageId: nat, capacity: nat, latitude: real, longitude: real)

  const Mamp := "https://mamp.parkings-semepa.fr/"
  const Semepa := "https://parkings-semepa.fr/"

  /** The `parkings` dict, in its declaration order. */
  const Parkings: Snapshot<Facility> := [
    ("Bellegarde", Facility(Mamp, 213, 340, 43.5322096, 5.4502100)),
    ("Cardeurs", Facility(Mamp, 219, 125, 43.5298981, 5.4458118)),
    ("Carnot", Facility(Mamp, 211, 675, 43.5255598, 5.4554612)),
    ("M\U{E9}janes", Facility(Mamp, 150, 800, 43.5239974, 5.4413805)),
    ("Mignet", Facility(Mamp, 209, 800, 43.52425, 5.4476974)),
    ("Pasteur", Facility(Mamp, 215, 650, 43.5339951, 5.4462335)),
    ("Rambot", Facility(Semepa, 221, 400, 43.5304833, 5.4580851)),
    ("Rotonde", Facility(Semepa, 206, 1800, 43.5253922, 5.4440594)),
    ("Signoret", Facility(Mamp, 217, 350, 43.5333509, 5.4486254))
  ]

  /** `{'Places', 'Capacite', 'Affichage', 'Statut', 'Timestamp', 'latitude', 'longitude'}`. */
  datatype Record = Record(places: nat, capacite: nat, affichage: string, statut: string,
                           timestamp: string, latitude: real, longitude: real)

  /** The `Affichage` field. */
  function Display(o: Outcome, capacite: nat): (affichage: string) {
    match o
    case Available(n) => NatToString(n) + " / " + NatToString(capacite)
    case Message(s) => s
    case NoData => "N/A"
    case FetchError => "Erreur"
  }

  /** The record one iteration of the sweep stores for a facility. */
  function Build(f: Facility, p: Probe): (r: Record) {
    var o := Classify(p.fetch);
    Record(PlacesOf(o), f.capacity, Display(o, f.capacity), StatutOf(o), p.stamp, f.latitude, f.longitude)
  }

  /** Reads `"x / y"` back into its two numbers. */
  function ParseFraction(a: string): (r: Option<(nat, nat)>) {
    var k := GroupEnd(a, 0, Numeric);
    if k == 0 || !HasAt(a, k, " / ") then None
    else
      var rest := a[k + 3..];
      if |rest| == 0 || !AllDigits(rest) then None
      else Some((ParseDigits(a[..k]), ParseDigits(rest)))
  }

  /** The display of an open facility reads back as its places and its capacity. */
  lemma FractionRoundTrip(n: nat, c: nat)
    ensures ParseFraction(NatToString(n) + " / " + NatToString(c)) == Some((n, c))
  {
    var x, y := NatToString(n), NatToString(c);
    var a := x + " / " + y;
    var k := GroupEnd(a, 0, Numeric);
    forall m | 0 <= m < |x| ensures InGroup(Numeric, a[m]) {
      assert a[m] == x[m];
    }
    assert a[|x|] == ' ';
    assert k == |x|;
    assert a[k..k + 3] == " / ";
    assert a[..k] == x;
    assert a[k + 3..] == y;
    ParseNatToString(n);
    ParseNatToString(c);
  }

  /** The snapshot a sweep of this page produces: one entry per configured
      facility, in configuration order, built from that facility's tuple and probe. */
  ghost function Swept(config: Snapshot<Facility>, probes: seq<Probe>): (d: Snapshot<Record>)
    requires |probes| == |config|
    ensures |d| == |config|
    ensures forall i :: 0 <= i < |config| ==> d[i] == (config[i].0, Build(config[i].1, probes[i]))
  {
    SweptWith(config, probes, Build)
  }

  /** `scraper_parkings()` of this page. */
  method Sweep(config: Snapshot<Facility>, probes: seq<Probe>) returns (data: Snapshot<Record>)
    requires Distinct(Names(config)) && |probes| == |config|
    ensures data == Swept(config, probes)
    ensures Names(data) == Names(config)
  {
    data := SweepWith(config, probes, Build);
  }

  /** Every record of a sweep copies capacity and coordinates from its tuple,
      carries its probe's timestamp, and reflects the branch its probe took:
      `Places` and `Statut` give the branch back, `Places` is 0 unless the
      facility is open, and `Affichage` is `"places / capacity"` for an open
      facility (which reads back as the pair), the phrase the warning carries
      for a textual status, `N/A` without data and `Erreur` after an error. */
  lemma SweptRecords(config: Snapshot<Facility>, probes: seq<Probe>, i: nat)
    requires |probes| == |config| && i < |config|
    ensures var r := Swept(config, probes)[i].1;
            var f := config[i].1;
            var o := Classify(probes[i].fetch);
            && r.capacite == f.capacity && r.latitude == f.latitude && r.longitude == f.longitude
            && r.timestamp == probes[i].stamp
            && Recover(r.places, r.statut) == o
            && (r.statut == Open <==> o.Available?)
            && (r.places != 0 ==> r.statut == Open)
            && (o.Available? ==> r.places == o.n
                                 && r.affichage == NatToString(r.places) + " / " + NatToString(r.capacite)
                                 && ParseFraction(r.affichage) == Some((r.places, r.capacite)))
            && (o.Message? ==> r.affichage == o.phrase && r.statut == WarningPrefix + r.affichage)
            && (o.NoData? ==> r.affichage == "N/A" && r.statut == NoDataStatut)
            && (o.FetchError? ==> r.affichage == "Erreur" && r.statut == ErrorStatut)
  {
    var o := Classify(probes[i].fetch);
    RecoverOutcome(o);
    if o.Available? {
      FractionRoundTrip(o.n, config[i].1.capacity);
    }
  }

  /** The cold-start block: load the cache, and if it is empty run one sweep and save it. */
  method ColdStart(cache: Cache<Record>, config: Snapshot<Facility>, probes: seq<Probe>)
    returns (cached: Snapshot<Record>)
    requires Distinct(Names(config)) && |probes| == |config|
    modifies cache
    ensures old(cache.Loaded()) != [] ==> cached == old(cache.Loaded()) && cache.file == old(cache.file)
    ensures old(cache.Loaded()) == [] ==> cached == Swept(config, probes) && cache.file == Holds(cached)
    ensures config != [] ==> cached != []
  {
    cached := cache.Load();
    if cached == [] {
      cached := Sweep(config, probes);
      cache.Save(cached);
    }
  }

  /** The refresh button: a fresh sweep replaces both `cached_data` and the
      whole cache file, whatever they held. */
  method Refresh(cache: Cache<Record>, config: Snapshot<Facility>, probes: seq<Probe>)
    returns (cached: Snapshot<Record>)
    requires Distinct(Names(config)) && |probes| == |config|
    modifies cache
    ensures cached == Swept(config, probes) && cache.file == Holds(cached)
  {
    cached := Sweep(config, probes);
    cache.Save(cached);
  }

  /** One pass of the background loop: sweep, then overwrite the cache. */
  method BackgroundPass(cache: Cache<Record>, config: Snapshot<Facility>, probes: seq<Probe>)
    requires Distinct(Names(config)) && |probes| == |config|
    modifies cache
    ensures cache.file == Holds(Swept(config, probes))
  {
    var data := Sweep(config, probes);
    cache.Save(data);
  }

  /** One run of the page script up to the metrics: cold start, then the button
      if it was pressed. */
  method Page(cache: Cache<Record>, config: Snapshot<Facility>, startProbes: seq<Probe>,
              pressed: bool, refreshProbes: seq<Probe>)
    returns (cached: Snapshot<Record>)
    requires Distinct(Names(config)) && |startProbes| == |config| && |refreshProbes| == |config|
    modifies cache
    ensures pressed ==> cached == Swept(config, refreshProbes) && cache.file == Holds(cached)
    ensures !pressed && old(cache.Loaded()) != [] ==> cached == old(cache.Loaded()) && cache.file == old(cache.file)
    ensures !pressed && old(cache.Loaded()) == [] ==> cached == Swept(config, startProbes) && cache.file == Holds(cached)
    ensures config != [] ==> cached != []
  {
    cached := ColdStart(cache, config, startProbes);
    if pressed {
      cached := Refresh(cache, config, refreshProbes);
    }
  }

  /** The two columns of the table row built from a record. */
  function RowOf(r: Record): (row: Row) {
    Row(r.places, r.statut)
  }

  /** A freshly swept snapshot: the total is that of its open facilities, and
      no more facilities are open than are configured. */
  lemma SweptTotals(config: Snapshot<Facility>, probes: seq<Probe>)
    requires |probes| == |config|
    ensures TotalPlaces(Table(Swept(config, probes), RowOf)) == TotalPlaces(OpenRows(Table(Swept(config, probes), RowOf)))
    ensures OpenCount(Table(Swept(config, probes), RowOf)) <= |config|
  {
    var d := Swept(config, probes);
    forall i | 0 <= i < |d| ensures d[i].1.places != 0 ==> d[i].1.statut == Open {
      SweptRecords(config, probes, i);
    }
    TotalIsOpenTotal(Table(d, RowOf));
  }

  /** The configuration's names are distinct, there are nine of them, and every
      capacity is positive. */
  lemma ParkingsShape()
    ensures Distinct(Names(Parkings)) && |Parkings| == 9
    ensures forall i :: 0 <= i < |Parkings| ==> Parkings[i].1.capacity > 0
  {
    NamesDistinct();
    CapacitiesPositive();
  }

  /** The names strictly increase under their first and fourth letters. */
  lemma NamesDistinct()
    ensures Distinct(Names(Parkings))
  {
    var ns := Names(Parkings);
    var key := (s: string) => if |s| < 4 then 0 else s[0] as int * 0x11_0000 + s[3] as int;
    forall i | 0 <= i < |ns| - 1 ensures key(ns[i]) < key(ns[i + 1]) { }
    IncreasingDistinct(ns, key);
  }

  lemma CapacitiesPositive()
    ensures forall i :: 0 <= i < |Parkings| ==> Parkings[i].1.capacity > 0
  {
  }

  /** `get_color(places, capacite)`, with the ratio computed exactly. */
  function GetColor(places: int, capacite: int): (color: string)
    ensures color in {"gray", "green", "orange", "red"}
    ensures color == "gray" <==> capacite == 0
  {
    if capacite == 0 then "gray"
    else
      var taux := places as real / capacite as real;
      if taux > 0.5 then "green"
      else if taux > 0.2 then "orange"
      else "red"
  }

  /** Since every configured capacity is positive, no marker of a swept
      snapshot of the configuration is grey. */
  lemma SweptMarkersNotGray(probes: seq<Probe>)
    requires |probes| == |Parkings|
    ensures forall i :: 0 <= i < |Parkings| ==>
              GetColor(Swept(Parkings, probes)[i].1.places, Swept(Parkings, probes)[i].1.capacite) != "gray"
  {
    ParkingsShape();
  }

  /** For a positive capacity the two ratio thresholds are integer comparisons:
      green above one half, orange above one fifth up to one half, red at one
      fifth or below; exactly one of the three holds. */
  lemma ColorThresholds(places: int, capacite: int)
    requires capacite > 0
    ensures GetColor(places, capacite) == "green" <==> 2 * places > capacite
    ensures GetColor(places, capacite) == "orange" <==> 5 * places > capacite && 2 * places <= capacite
    ensures GetColor(places, capacite) == "red" <==> 5 * places <= capacite
  {
    RatioAbove(places as real, capacite as real, 0.5);
    RatioAbove(places as real, capacite as real, 0.2);
  }

  lemma RatioAbove(p: real, c: real, q: real)
    requires c > 0.0
    ensures p / c > q <==> p > q * c
  {
    var t := p / c;
    assert t * c == p;
    assert (t - q) * c == p - q * c;
    if t > q {
      ProductPositive(t - q, c);
    } else if q > t {
      ProductPositive(q - t, c);
    }
  }

  lemma ProductPositive(a: real, b: real)
    requires a > 0.0 && b > 0.0
    ensures a * b > 0.0
  {
  }
}
