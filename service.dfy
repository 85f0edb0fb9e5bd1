/** The service catalogue routes: the list of active services in name order,
    and one active service by id, both in the shape the frontend reads. */
module ServiceRoutes {
  import opened Wrappers
  import opened Table
  import opened Sorting
  import opened Records

  /** A service as sent to the frontend: `duration` and `durationMinutes` both
      carry `duration_minutes`. */
  datatype ServiceView = ServiceView(
    id: Id, name: string, description: string, price: int, duration: int, durationMinutes: int,
    categoryId: Id, imageUrl: string, isActive: bool, createdAt: nat, updatedAt: nat)

  function Transform(s: Service): ServiceView {
    ServiceView(s.id, s.name, s.description, s.price, s.durationMinutes, s.durationMinutes,
                s.categoryId, s.imageUrl, s.isActive, s.createdAt, s.updatedAt)
  }

  /** The row a view was made from. */
  function Untransform(v: ServiceView): Service {
    Service(v.id, v.name, v.description, v.price, v.durationMinutes, v.categoryId,
            v.imageUrl, v.isActive, v.createdAt, v.updatedAt)
  }

  /** The view loses nothing, and its two duration fields agree. */
  lemma TransformRoundTrip(s: Service)
    ensures Untransform(Transform(s)) == s
    ensures Transform(s).duration == Transform(s).durationMinutes == s.durationMinutes
  {
  }

  /** `.order('name')`, by code point. */
  predicate ByName(a: Service, b: Service) {
    LexLe(a.name, b.name)
  }

  lemma ByNameIsTotalPreorder()
    ensures TotalPreorder(ByName)
  {
    forall a: Service, b: Service ensures ByName(a, b) || ByName(b, a) {
      LexLeTotal(a.name, b.name);
    }
    forall a: Service, b: Service, c: Service | ByName(a, b) && ByName(b, c) ensures ByName(a, c) {
      LexLeTransitive(a.name, b.name, c.name);
    }
  }

  /** `.eq('is_active', true).order('name')`. */
  function ActiveByName(services: seq<Service>): (r: seq<Service>)
    ensures SortedBy(r, ByName)
    ensures multiset(r) == multiset(Where(services, ServiceActive, true))
  {
    ByNameIsTotalPreorder();
    SortBy(Where(services, ServiceActive, true), ByName)
  }

  datatype ServicesReply = ServicesReply(status: int, services: seq<ServiceView>, count: int)

  /** GET /api/services. */
  function ListServices(services: seq<Service>): (r: ServicesReply)
    ensures r.status == 200 && r.count == |r.services|
  {
    var rows := ActiveByName(services);
    var views := seq(|rows|, k requires 0 <= k < |rows| => Transform(rows[k]));
    ServicesReply(200, views, |views|)
  }

  /** The list holds the view of every active service and nothing else, as many
      times as the row occurs, in name order. */
  lemma ListedServicesAreTheActiveOnes(services: seq<Service>)
    ensures var r := ListServices(services).services;
      && (forall s :: Transform(s) in r <==> s in services && s.isActive)
      && (forall i, j :: 0 <= i < j < |r| ==> LexLe(r[i].name, r[j].name))
      && |r| == |Where(services, ServiceActive, true)|
  {
    var rows := ActiveByName(services);
    var r := ListServices(services).services;
    forall s ensures Transform(s) in r <==> s in services && s.isActive {
      if Transform(s) in r {
        var k :| 0 <= k < |r| && r[k] == Transform(s);
        TransformRoundTrip(s);
        TransformRoundTrip(rows[k]);
        assert rows[k] == s;
        assert s in multiset(rows);
      }
      if s in services && s.isActive {
        assert s in Where(services, ServiceActive, true);
        assert s in multiset(rows);
        var k :| 0 <= k < |rows| && rows[k] == s;
        assert r[k] == Transform(s);
      }
    }
    assert |multiset(rows)| == |multiset(Where(services, ServiceActive, true))|;
  }

  datatype ServiceReply = ServiceReply(status: int, message: string, service: Option<ServiceView>)

  /** GET /api/services/:id: 400 for an id that is not a uuid, 404 unless exactly
      one active row has the id. */
  function GetService(services: seq<Service>, id: Id, idIsUuid: bool): (r: ServiceReply)
    ensures !idIsUuid ==> r.status == 400
    ensures idIsUuid ==> (r.status == 200 <==> Single(services, ServiceKeyActive, (id, true)).Some?)
    ensures r.status == 200 ==> (exists k :: 0 <= k < |services| && services[k].id == id && services[k].isActive
                                             && r.service == Some(Transform(services[k])))
    ensures idIsUuid && r.status != 200 ==> r.status == 404 && r.message == "Service not found or inactive" && r.service.None?
  {
    if !idIsUuid then ServiceReply(400, "Validation failed", None)
    else
      match Single(services, ServiceKeyActive, (id, true))
      case None => ServiceReply(404, "Service not found or inactive", None)
      case Some(k) => ServiceReply(200, "", Some(Transform(services[k])))
  }

  /** With service ids unique, a valid id is found exactly when an active service has it. */
  lemma GetServiceFindsActive(services: seq<Service>, id: Id)
    requires DistinctKeys(services, ServiceKey)
    ensures GetService(services, id, true).status == 200 <==>
      exists k :: 0 <= k < |services| && services[k].id == id && services[k].isActive
  {
    assert DistinctKeys(services, ServiceKeyActive) by {
      forall i, j | 0 <= i < j < |services| ensures ServiceKeyActive(services[i]) != ServiceKeyActive(services[j]) {
        assert ServiceKey(services[i]) != ServiceKey(services[j]);
      }
    }
    SingleOfDistinct(services, ServiceKeyActive, (id, true));
    if exists k :: 0 <= k < |services| && services[k].id == id && services[k].isActive {
      var k :| 0 <= k < |services| && services[k].id == id && services[k].isActive;
      assert ServiceKeyActive(services[k]) == (id, true);
    }
  }
}
