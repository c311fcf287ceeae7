/** `scraper_parkings()`, the loop both pages share: it visits the configured
    facilities in order and stores one record per facility under its name.
    The pages differ only in how a record is built from a facility's tuple
    and what its request gave, so the builder is a parameter here. */
module Collector {
  import opened Scrape
  import opened Snapshots

  /** The snapshot a sweep produces: one entry per configured facility, in
      configuration order, built from that facility's tuple and its probe. */
  ghost function SweptWith<F, R>(config: Snapshot<F>, probes: seq<Probe>, build: (F, Probe) -> R): (d: Snapshot<R>)
    requires |probes| == |config|
    ensures |d| == |config|
    ensures forall i :: 0 <= i < |config| ==> d[i] == (config[i].0, build(config[i].1, probes[i]))
  {
    if config == [] then []
    else [(config[0].0, build(config[0].1, probes[0]))] + SweptWith(config[1..], probes[1..], build)
  }

  /** The loop: `data[nom] = ...` is assigned in every branch, the `except`
      one included, so each facility gets exactly one entry. */
  method SweepWith<F, R>(config: Snapshot<F>, probes: seq<Probe>, build: (F, Probe) -> R)
    returns (data: Snapshot<R>)
    requires Distinct(Names(config)) && |probes| == |config|
    ensures data == SweptWith(config, probes, build)
    ensures Names(data) == Names(config)
  {
    data := [];
    var i := 0;
    while i < |config|
      invariant 0 <= i <= |config|
      invariant |data| == i
      invariant forall j :: 0 <= j < i ==> data[j] == (config[j].0, build(config[j].1, probes[j]))
    {
      var (nom, facility) := config[i];
      assert nom !in Names(data) by {
        forall j | 0 <= j < i ensures Names(data)[j] != nom {
          assert Names(config)[j] == config[j].0;
        }
      }
      data := Put(data, nom, build(facility, probes[i]));
      i := i + 1;
    }
  }
}
