/** The fixed lookup tables: the couriers, the delivery zones, the flat
    delivery cost of each zone and the courier who serves it. */
module Constants {
  import opened Types

  const Couriers: seq<CourierName> := [James, Beltran, Ismael]

  const Zones: seq<Zone> := [AreaMetropolitana, SanAntonio, Oriente, Bogota]

  /** `DELIVERY_COSTS`: defined for every zone, always a positive fee. */
  function DeliveryCost(z: Zone): (cost: int)
    ensures cost > 0
    ensures cost == 9000 || cost == 13500 || cost == 25000 || cost == 10000
  {
    match z
    case AreaMetropolitana => 9000
    case SanAntonio => 13500
    case Oriente => 25000
    case Bogota => 10000
  }

  /** `ZONE_TO_COURIER_MAP`: defined for every zone. */
  function ZoneCourier(z: Zone): (c: CourierName)
    ensures c in Couriers
  {
    match z
    case AreaMetropolitana => James
    case SanAntonio => James
    case Oriente => Beltran
    case Bogota => Ismael
  }

  /** An order whose courier and fee are the ones its zone determines. */
  predicate ZoneConsistent(o: Order) {
    o.courier == ZoneCourier(o.zone) && o.deliveryCost == DeliveryCost(o.zone)
  }

  predicate NoDuplicates<T(==)>(s: seq<T>) {
    forall i, j :: 0 <= i < j < |s| ==> s[i] != s[j]
  }

  lemma {:induction false} ZonesListEachOnce()
    ensures forall z: Zone :: z in Zones
    ensures NoDuplicates(Zones) && |Zones| == 4
  {
    forall z: Zone ensures z in Zones {
      match z
      case AreaMetropolitana => assert Zones[0] == z;
      case SanAntonio => assert Zones[1] == z;
      case Oriente => assert Zones[2] == z;
      case Bogota => assert Zones[3] == z;
    }
  }

  lemma {:induction false} CouriersListEachOnce()
    ensures forall c: CourierName :: c in Couriers
    ensures NoDuplicates(Couriers) && |Couriers| == 3
  {
    forall c: CourierName ensures c in Couriers {
      match c
      case James => assert Couriers[0] == c;
      case Beltran => assert Couriers[1] == c;
      case Ismael => assert Couriers[2] == c;
    }
  }

  /** The couriers some zone maps to. */
  function ServedCouriers(): set<CourierName> {
    set z | z in Zones :: ZoneCourier(z)
  }

  /** Every courier serves at least one zone, and James serves two, so the
      zone-to-courier table is onto but not one-to-one. */
  lemma {:induction false} ZoneCourierOntoNotInjective()
    ensures forall c: CourierName :: c in ServedCouriers()
    ensures ZoneCourier(AreaMetropolitana) == ZoneCourier(SanAntonio)
    ensures AreaMetropolitana != SanAntonio
  {
    forall c: CourierName ensures c in ServedCouriers() {
      match c
      case James => assert ZoneCourier(Zones[0]) == c;
      case Beltran => assert ZoneCourier(Zones[2]) == c;
      case Ismael => assert ZoneCourier(Zones[3]) == c;
    }
  }
}
