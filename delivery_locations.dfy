/** The configured delivery areas and the lookups over them. */
module DeliveryLocations {
  import opened Wrappers
  import Seqs

  datatype DeliveryLocation = DeliveryLocation(
    id: string,
    city: string,
    area: string,
    agencies: seq<string>,
    instructions: string,
    workingHours: string,
    contactPerson: string,
    contactPhone: string,
    isActive: bool)

  const Instructions: string :=
    "Our ProList agents will handle the delivery. They will collect the item from the transport agency "
    + "or park and route it to ProList Warehouse."

  const BamendaAgencies: seq<string> := [
    "Moghamo Express \U{2013} Mile 4 Park",
    "Nso Boys Express \U{2013} Bambui & Mile 4 Park"
  ]

  const Locations: seq<DeliveryLocation> := [
    DeliveryLocation("bamenda-city-chemist", "Bamenda", "City Chemist / Mile 2 Nkwen", BamendaAgencies,
      Instructions, "08:00 \U{2013} 18:00 (Tuesday\U{2013}Saturday)", "Jam Ransom", "+237 671 308 991", true),
    DeliveryLocation("bambili", "Bamenda", "Bambili", BamendaAgencies,
      Instructions, "08:00 \U{2013} 18:00 (Tuesday\U{2013}Saturday)", "Jam Ransom", "+237 671 308 991", true)
  ]

  function IsActive(): DeliveryLocation -> bool {
    (l: DeliveryLocation) => l.isActive
  }

  function InCity(city: string): DeliveryLocation -> bool {
    (l: DeliveryLocation) => l.city == city && l.isActive
  }

  /** The active entries of `locs`, in order. */
  function ActiveLocations(locs: seq<DeliveryLocation>): (r: seq<DeliveryLocation>)
    ensures forall l :: l in r <==> l in locs && l.isActive
  {
    Seqs.Filter(locs, IsActive())
  }

  /** The active entries of `locs` in `city`, in order. */
  function LocationsByCity(locs: seq<DeliveryLocation>, city: string): (r: seq<DeliveryLocation>)
    ensures forall l :: l in r <==> l in locs && l.city == city && l.isActive
  {
    Seqs.Filter(locs, InCity(city))
  }

  /** The first entry of `locs` with that id, active or not. */
  function LocationById(locs: seq<DeliveryLocation>, id: string): (r: Option<DeliveryLocation>)
    ensures r.None? <==> forall j :: 0 <= j < |locs| ==> locs[j].id != id
    ensures r.Some? ==> exists i :: 0 <= i < |locs| && locs[i] == r.value && r.value.id == id
                                    && forall j :: 0 <= j < i ==> locs[j].id != id
  {
    var i := Seqs.IndexWhere(locs, (l: DeliveryLocation) => l.id == id);
    if i < 0 then None else Some(locs[i])
  }

  /** The city of every entry, one per entry: a city is listed exactly when some entry lies in it. */
  function Cities(locs: seq<DeliveryLocation>): (r: seq<string>)
    ensures |r| == |locs| && forall i :: 0 <= i < |locs| ==> r[i] == locs[i].city
    ensures forall c :: c in r <==> exists l :: l in locs && l.city == c
  {
    var r := seq(|locs|, i requires 0 <= i < |locs| => locs[i].city);
    assert forall c :: c in r ==> exists l :: l in locs && l.city == c by {
      forall c | c in r
        ensures exists l :: l in locs && l.city == c
      {
        var i :| 0 <= i < |r| && r[i] == c;
        assert locs[i] in locs;
      }
    }
    assert forall l :: l in locs ==> l.city in r by {
      forall l | l in locs
        ensures l.city in r
      {
        var i :| 0 <= i < |locs| && locs[i] == l;
        assert r[i] == l.city;
      }
    }
    r
  }

  /** The cities of the active entries, each once. */
  function UniqueCities(locs: seq<DeliveryLocation>): (r: seq<string>)
    ensures Seqs.NoDuplicates(r)
    ensures forall c :: c in r <==> exists l :: l in locs && l.isActive && l.city == c
  {
    Seqs.Dedup(Cities(ActiveLocations(locs)))
  }

  /** Every city offered has at least one active area to choose from. */
  lemma EachCityHasAreas(locs: seq<DeliveryLocation>, city: string)
    requires city in UniqueCities(locs)
    ensures LocationsByCity(locs, city) != []
  {
    var l :| l in locs && l.isActive && l.city == city;
    assert l in LocationsByCity(locs, city);
  }

  /** The active configured areas. */
  function GetActiveLocations(): (r: seq<DeliveryLocation>)
    ensures forall l :: l in r <==> l in Locations && l.isActive
  {
    ActiveLocations(Locations)
  }

  /** The active configured areas of `city`. */
  function GetLocationsByCity(city: string): (r: seq<DeliveryLocation>)
    ensures forall l :: l in r <==> l in Locations && l.city == city && l.isActive
  {
    LocationsByCity(Locations, city)
  }

  /** The configured area with that id, active or not. */
  function GetLocationById(id: string): (r: Option<DeliveryLocation>)
    ensures r.Some? ==> r.value in Locations && r.value.id == id
    ensures r.None? <==> forall l :: l in Locations ==> l.id != id
  {
    LocationById(Locations, id)
  }

  /** The cities with an active configured area, each once. */
  function GetUniqueCities(): (r: seq<string>)
    ensures Seqs.NoDuplicates(r)
    ensures forall c :: c in r <==> exists l :: l in Locations && l.isActive && l.city == c
  {
    UniqueCities(Locations)
  }

  /** With the configured entries, Bamenda is the one city, with its two areas. */
  lemma ConfiguredCities()
    ensures GetUniqueCities() == ["Bamenda"]
    ensures |GetLocationsByCity("Bamenda")| == 2
  {
    assert GetActiveLocations() == Locations;
    var cities: seq<string> := ["Bamenda", "Bamenda"];
    assert Cities(Locations) == cities;
    assert cities[..1] == ["Bamenda"] && ["Bamenda"][..0] == [];
    assert Seqs.Dedup(cities[..1]) == ["Bamenda"];
  }
}
