// The guideline check and the critical-sites list of the water quality
// page (nairobi-dashboard/src/pages/WaterPollution.jsx).

module WaterPollution {
  import opened Common

  datatype Pollutant = Pollutant(id: string, name: string, unit: string, guideline: real)

  /** A sampling site with one reading per pollutant. */
  datatype Site = Site(location: string, nitrates: real, lead: real, phosphate: real, bod: real)

  function Pollutants(): seq<Pollutant>
  {
    [Pollutant("nitrates", "Nitrates", "mg/L", 10.0),
     Pollutant("lead", "Lead", "ppb", 10.0),
     Pollutant("phosphate", "Phosphate", "mg/L", 0.1),
     Pollutant("BOD", "BOD", "mg/L", 5.0)]
  }

  function SampleData(): seq<Site>
  {
    [Site("Industrial Area", 12.4, 8.2, 0.8, 12.5),
     Site("CBD Outflow", 8.7, 5.1, 0.5, 8.2),
     Site("Kibera", 15.2, 12.8, 1.2, 18.4),
     Site("Ruai", 6.8, 3.2, 0.3, 6.1)]
  }

  /** The first pollutant in `ps` with the given id (`Array.prototype.find`). */
  function Find(ps: seq<Pollutant>, id: string): (r: Option<Pollutant>)
    ensures r.Some? ==> r.value in ps && r.value.id == id
    ensures r.None? <==> forall p :: p in ps ==> p.id != id
  {
    if ps == [] then None
    else if ps[0].id == id then Some(ps[0])
    else Find(ps[1..], id)
  }

  /**
   * Whether `value` is strictly above the guideline of the pollutant; an
   * unknown pollutant id fails, as reading the guideline of `undefined` throws.
   */
  function IsExceedingGuideline(value: real, pollutantId: string): (r: Result<bool>)
    ensures r.Err? <==> Find(Pollutants(), pollutantId).None?
    ensures r.Ok? ==> (r.value <==> value > Find(Pollutants(), pollutantId).value.guideline)
  {
    var p := Find(Pollutants(), pollutantId);
    if p.None? then Err("TypeError: pollutant is undefined") else Ok(value > p.value.guideline)
  }

  /** A value equal to the guideline does not exceed it. */
  lemma GuidelineIsNotExceeded(p: Pollutant)
    requires p in Pollutants()
    ensures IsExceedingGuideline(p.guideline, p.id) == Ok(false)
  {
  }

  /** `site[pollutantId]`: the site's reading of that pollutant, if it has one. */
  function Reading(site: Site, pollutantId: string): (r: Option<real>)
    ensures r.Some? <==> Find(Pollutants(), pollutantId).Some?
  {
    if pollutantId == "nitrates" then Some(site.nitrates)
    else if pollutantId == "lead" then Some(site.lead)
    else if pollutantId == "phosphate" then Some(site.phosphate)
    else if pollutantId == "BOD" then Some(site.bod)
    else None
  }

  /** The site's reading is above the pollutant's guideline. */
  predicate Exceeds(site: Site, pollutantId: string)
  {
    var v := Reading(site, pollutantId);
    v.Some? && IsExceedingGuideline(v.value, pollutantId) == Ok(true)
  }

  /** The sites of `sites` whose reading exceeds the guideline, in their order. */
  function Critical(sites: seq<Site>, pollutantId: string): seq<Site>
  {
    Filter(sites, s => Exceeds(s, pollutantId))
  }

  /** `Critical` keeps exactly the exceeding sites, in order. */
  lemma CriticalIsFilter(sites: seq<Site>, pollutantId: string)
    ensures IsSubsequence(Critical(sites, pollutantId), sites)
    ensures forall s :: s in Critical(sites, pollutantId) <==> s in sites && Exceeds(s, pollutantId)
  {
    FilterIsSubsequence(sites, s => Exceeds(s, pollutantId));
  }

  /**
   * The sites shown as critical for the selected pollutant; an unknown
   * pollutant fails on the first site.
   */
  function CriticalSites(pollutantId: string): (r: Result<seq<Site>>)
    ensures r.Err? <==> Find(Pollutants(), pollutantId).None?
    ensures r.Ok? ==> IsSubsequence(r.value, SampleData())
    ensures r.Ok? ==> forall s :: s in r.value <==> s in SampleData() && Exceeds(s, pollutantId)
  {
    if Find(Pollutants(), pollutantId).None? then Err("TypeError: pollutant is undefined")
    else
      CriticalIsFilter(SampleData(), pollutantId);
      Ok(Critical(SampleData(), pollutantId))
  }

  lemma NitrateCriticalSites()
    ensures CriticalSites("nitrates") == Ok([SampleData()[0], SampleData()[2]])
  {
    var id := "nitrates";
    assert Find(Pollutants(), id) == Some(Pollutants()[0]);
    CriticalOfSample(id, true, false, true, false);
    var d := SampleData();
    assert [d[0]] + [] + [d[2]] + [] == [d[0], d[2]];
    assert CriticalSites(id) == Ok(Critical(SampleData(), id));
  }

  lemma LeadCriticalSites()
    ensures CriticalSites("lead") == Ok([SampleData()[2]])
  {
    var id := "lead";
    assert id != Pollutants()[0].id;
    assert Find(Pollutants(), id) == Some(Pollutants()[1]);
    CriticalOfSample(id, false, false, true, false);
    var d := SampleData();
    assert [] + [] + [d[2]] + [] == [d[2]];
    assert CriticalSites(id) == Ok(Critical(SampleData(), id));
  }

  lemma PhosphateCriticalSites()
    ensures CriticalSites("phosphate") == Ok(SampleData())
  {
    var id := "phosphate";
    assert id != Pollutants()[0].id && id != Pollutants()[1].id;
    assert Find(Pollutants(), id) == Some(Pollutants()[2]);
    CriticalOfSample(id, true, true, true, true);
    AllOfFour(SampleData());
    assert CriticalSites(id) == Ok(Critical(SampleData(), id));
  }

  lemma BodCriticalSites()
    ensures CriticalSites("BOD") == Ok(SampleData())
  {
    var id := "BOD";
    assert id != Pollutants()[0].id && id != Pollutants()[1].id && id != Pollutants()[2].id;
    assert Find(Pollutants(), id) == Some(Pollutants()[3]);
    CriticalOfSample(id, true, true, true, true);
    AllOfFour(SampleData());
    assert CriticalSites(id) == Ok(Critical(SampleData(), id));
  }

  /** The critical list of four sites, given which of them exceed. */
  lemma CriticalOfSample(id: string, k0: bool, k1: bool, k2: bool, k3: bool)
    requires Exceeds(SampleData()[0], id) == k0 && Exceeds(SampleData()[1], id) == k1
    requires Exceeds(SampleData()[2], id) == k2 && Exceeds(SampleData()[3], id) == k3
    ensures Critical(SampleData(), id) ==
      (if k0 then [SampleData()[0]] else []) + (if k1 then [SampleData()[1]] else []) +
      (if k2 then [SampleData()[2]] else []) + (if k3 then [SampleData()[3]] else [])
  {
    CriticalOfFour(SampleData(), id);
  }

  lemma CriticalOfFour(d: seq<Site>, id: string)
    requires |d| == 4
    ensures Critical(d, id) ==
      (if Exceeds(d[0], id) then [d[0]] else []) + (if Exceeds(d[1], id) then [d[1]] else []) +
      (if Exceeds(d[2], id) then [d[2]] else []) + (if Exceeds(d[3], id) then [d[3]] else [])
  {
    var d1, d2, d3 := d[1..], d[2..], d[3..];
    assert d1[1..] == d2 && d2[1..] == d3 && d3[1..] == [];
    var p0 := if Exceeds(d[0], id) then [d[0]] else [];
    var p1 := if Exceeds(d[1], id) then [d[1]] else [];
    var p2 := if Exceeds(d[2], id) then [d[2]] else [];
    var p3 := if Exceeds(d[3], id) then [d[3]] else [];
    assert Critical(d3, id) == p3;
    assert Critical(d2, id) == p2 + p3;
    assert Critical(d1, id) == p1 + (p2 + p3);
    assert Critical(d, id) == p0 + (p1 + (p2 + p3));
    ConcatAssoc4(p0, p1, p2, p3);
  }

  lemma ConcatAssoc4<T>(p0: seq<T>, p1: seq<T>, p2: seq<T>, p3: seq<T>)
    ensures p0 + (p1 + (p2 + p3)) == p0 + p1 + p2 + p3
  {
  }

  lemma AllOfFour<T>(d: seq<T>)
    requires |d| == 4
    ensures [d[0]] + [d[1]] + [d[2]] + [d[3]] == d
  {
  }
}
