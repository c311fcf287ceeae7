/** The collector of the three-field dashboard: its configuration, the sweep
    that fills one record per facility, the cold-start and refresh logic over
    the cache file, and the two metrics shown above the cards. */
module Dashboard {
  import opened Wrappers
  import opened Scrape
  import opened Snapshots
  import opened Store
  import opened Summary
  import opened Collector

  /** A configuration tuple: base URL and the `page_id` query parameter. */
  datatype Facility = Facility(baseUrl: string, pageId: nat)

  const Mamp := "https://mamp.parkings-semepa.fr/"
  const Semepa := "https://parkings-semepa.fr/"

  /** The `parkings` dict, in its declaration order. */
  const Parkings: Snapshot<Facility> := [
    ("Bellegarde", Facility(Mamp, 213)),
    ("Cardeurs", Facility(Mamp, 219)),
    ("Carnot", Facility(Mamp, 211)),
    ("M\U{E9}janes", Facility(Mamp, 150)),
    ("Mignet", Facility(Mamp, 209)),
    ("Pasteur", Facility(Mamp, 215)),
    ("Rambot", Facility(Semepa, 221)),
    ("Rotonde", Facility(Semepa, 206)),
    ("Signoret", Facility(Mamp, 217))
  ]

  /** `{'Places': ..., 'Statut': ..., 'Timestamp': ...}`. */
  datatype Record = Record(places: nat, statut: string, timestamp: string)

  /** The record one iteration of the sweep stores for a facility. */
  function Build(p: Probe): (r: Record) {
    var o := Classify(p.fetch);
    Record(PlacesOf(o), StatutOf(o), p.stamp)
  }

  /** The record stored for a facility: the tuple only chooses the request. */
  function Entry(f: Facility, p: Probe): (r: Record) {
    Build(p)
  }

  /** The snapshot a sweep of this page produces: one entry per configured
      facility, in configuration order, built from that facility's probe. */
  ghost function Swept(config: Snapshot<Facility>, probes: seq<Probe>): (d: Snapshot<Record>)
    requires |probes| == |config|
    ensures |d| == |config|
    ensures forall i :: 0 <= i < |config| ==> d[i] == (config[i].0, Build(probes[i]))
  {
    SweptWith(config, probes, Entry)
  }

  /** `scraper_parkings()` of this page. */
  method Sweep(config: Snapshot<Facility>, probes: seq<Probe>) returns (data: Snapshot<Record>)
    requires Distinct(Names(config)) && |probes| == |config|
    ensures data == Swept(config, probes)
    ensures Names(data) == Names(config)
  {
    data := SweepWith(config, probes, Entry);
  }

  /** Every record of a sweep carries the branch its facility's probe took, and
      that branch can be read back from `Places` and `Statut`. */
  lemma SweptRecords(config: Snapshot<Facility>, probes: seq<Probe>, i: nat)
    requires |probes| == |config| && i < |config|
    ensures var r := Swept(config, probes)[i].1;
            var o := Classify(probes[i].fetch);
            && r.timestamp == probes[i].stamp
            && Recover(r.places, r.statut) == o
            && (r.statut == Open <==> o.Available?)
            && (r.places != 0 ==> r.statut == Open)
            && (o.Available? ==> r.places == o.n)
            && (o.Message? ==> r.statut == WarningPrefix + o.phrase)
            && (o.NoData? ==> r.statut == NoDataStatut)
            && (o.FetchError? ==> r.statut == ErrorStatut)
  {
    RecoverOutcome(Classify(probes[i].fetch));
  }

  /** The cold-start block: load the cache, and if it is empty run one sweep and save it. */
  method ColdStart(cache: Cache<Record>, config: Snapshot<Facility>, probes: seq<Probe>)
    returns (cached: Snapshot<Record>)
    requires Distinct(Names(config)) && |probes| == |config|
    modifies cache
    ensures old(cache.Loaded()) != [] ==> cached == old(cache.Loaded()) && cache.file == old(cache.file)
    ensures old(cache.Loaded()) == [] ==> cached == Swept(config, probes) && cache.file == Holds(cached)
    ensures config != [] ==> cached != []
  {
    cached := cache.Load();
    if cached == [] {
      cached := Sweep(config, probes);
      cache.Save(cached);
    }
  }

  /** The refresh button: a fresh sweep replaces both `cached_data` and the
      whole cache file, whatever they held. */
  method Refresh(cache: Cache<Record>, config: Snapshot<Facility>, probes: seq<Probe>)
    returns (cached: Snapshot<Record>)
    requires Distinct(Names(config)) && |probes| == |config|
    modifies cache
    ensures cached == Swept(config, probes) && cache.file == Holds(cached)
  {
    cached := Sweep(config, probes);
    cache.Save(cached);
  }

  /** One pass of the background loop: sweep, then overwrite the cache. */
  method BackgroundPass(cache: Cache<Record>, config: Snapshot<Facility>, probes: seq<Probe>)
    requires Distinct(Names(config)) && |probes| == |config|
    modifies cache
    ensures cache.file == Holds(Swept(config, probes))
  {
    var data := Sweep(config, probes);
    cache.Save(data);
  }

  /** One run of the page script up to the metrics: cold start, then the button
      if it was pressed. */
  method Page(cache: Cache<Record>, config: Snapshot<Facility>, startProbes: seq<Probe>,
              pressed: bool, refreshProbes: seq<Probe>)
    returns (cached: Snapshot<Record>)
    requires Distinct(Names(config)) && |startProbes| == |config| && |refreshProbes| == |config|
    modifies cache
    ensures pressed ==> cached == Swept(config, refreshProbes) && cache.file == Holds(cached)
    ensures !pressed && old(cache.Loaded()) != [] ==> cached == old(cache.Loaded()) && cache.file == old(cache.file)
    ensures !pressed && old(cache.Loaded()) == [] ==> cached == Swept(config, startProbes) && cache.file == Holds(cached)
    ensures config != [] ==> cached != []
  {
    cached := ColdStart(cache, config, startProbes);
    if pressed {
      cached := Refresh(cache, config, refreshProbes);
    }
  }

  /** The two columns of the table row built from a record. */
  function RowOf(r: Record): (row: Row) {
    Row(r.places, r.statut)
  }

  /** A freshly swept snapshot: the total is that of its open facilities, and
      no more facilities are open than are configured. */
  lemma SweptTotals(config: Snapshot<Facility>, probes: seq<Probe>)
    requires |probes| == |config|
    ensures TotalPlaces(Table(Swept(config, probes), RowOf)) == TotalPlaces(OpenRows(Table(Swept(config, probes), RowOf)))
    ensures OpenCount(Table(Swept(config, probes), RowOf)) <= |config|
  {
    var d := Swept(config, probes);
    forall i | 0 <= i < |d| ensures d[i].1.places != 0 ==> d[i].1.statut == Open {
      SweptRecords(config, probes, i);
    }
    TotalIsOpenTotal(Table(d, RowOf));
  }

  /** The configuration's names are distinct and there are nine of them. */
  lemma ParkingsDistinct()
    ensures Distinct(Names(Parkings)) && |Parkings| == 9
  {
    NamesDistinct();
  }

  /** The names strictly increase under their first and fourth letters. */
  lemma NamesDistinct()
    ensures Distinct(Names(Parkings))
  {
    var ns := Names(Parkings);
    var key := (s: string) => if |s| < 4 then 0 else s[0] as int * 0x11_0000 + s[3] as int;
    forall i | 0 <= i < |ns| - 1 ensures key(ns[i]) < key(ns[i + 1]) { }
    IncreasingDistinct(ns, key);
  }

  /** The page shows `f"{open_count}/9"`; after a sweep of the configuration
      the count never exceeds nine. */
  lemma OpenCountOfNine(probes: seq<Probe>)
    requires |probes| == |Parkings|
    ensures OpenCount(Table(Swept(Parkings, probes), RowOf)) <= 9
  {
    SweptTotals(Parkings, probes);
  }

  /** A JSON value as the record dict holds it. */
  datatype Value = Int(i: int) | Str(s: string)

  /** The dict the sweep assigns to `data[nom]`: exactly three keys. */
  function AsDict(r: Record): (m: map<string, Value>)
    ensures m.Keys == {"Places", "Statut", "Timestamp"}
  {
    map["Places" := Int(r.places), "Statut" := Str(r.statut), "Timestamp" := Str(r.timestamp)]
  }

  /** Reads a record back from a dict of that shape. */
  function FromDict(m: map<string, Value>): (r: Option<Record>) {
    if "Places" in m && m["Places"].Int? && m["Places"].i >= 0
       && "Statut" in m && m["Statut"].Str? && "Timestamp" in m && m["Timestamp"].Str?
    then Some(Record(m["Places"].i, m["Statut"].s, m["Timestamp"].s))
    else None
  }

  lemma DictRoundTrip(r: Record)
    ensures FromDict(AsDict(r)) == Some(r)
  {
  }
}
