/**
 * The records every store and screen shares (types.ts) and the seed lists the
 * stores start from (constants.ts). Ids and timestamps are plain strings.
 */
module Domain {
  import opened Common

  datatype Role = Tourist | Admin | Responder | Staff

  datatype AccountStatus = Active | Suspended

  /** A user account; the optional profile fields are only filled in by an administrator. */
  datatype User = User(
    id: string,
    name: string,
    email: string,
    role: Role,
    allowedRoles: seq<Role>,
    status: Option<AccountStatus>,
    phone: Option<string>,
    nationality: Option<string>,
    sex: Option<string>,
    age: Option<int>,
    birthdate: Option<string>)

  datatype Category = Nature | Historical | Urban | Beach

  datatype SafetyLevel = Safe | Caution | HighRisk

  /** `rating` is the source's floating-point number, kept as an exact real. */
  datatype Attraction = Attraction(
    id: string,
    name: string,
    category: Category,
    rating: real,
    imageUrl: string,
    safetyLevel: SafetyLevel,
    description: string)

  datatype FacilityType = Police | Medical | Fire | Tourism

  /** An emergency-service facility (the source's `EmergencyContact`). */
  datatype EmergencyContact = EmergencyContact(
    id: string,
    name: string,
    number: string,
    kind: FacilityType,
    distance: string)

  datatype PersonalContact = PersonalContact(id: string, name: string, number: string, relation: string)

  datatype Severity = Low | Medium | High | Critical

  /**
   * A published advisory. `location` is not part of the declared record, but the
   * dashboards pass one and the store spreads its argument, so it is carried along.
   */
  datatype SafetyAlert = SafetyAlert(
    id: string,
    title: string,
    severity: Severity,
    timestamp: string,
    details: string,
    location: Option<string>)

  datatype IncidentStatus = Pending | Resolved | InProgress

  datatype Coordinates = Coordinates(lat: real, lng: real)

  /** An emergency report; `kind` is the source's `type` field. */
  datatype Incident = Incident(
    id: string,
    kind: string,
    location: string,
    distance: Option<string>,
    timeReported: string,
    caller: string,
    contact: string,
    status: IncidentStatus,
    coordinates: Option<Coordinates>)

  const SeedAttractions: seq<Attraction> := [
    Attraction("1", "Kawasan Falls", Nature, 4.8, "https://picsum.photos/400/300?random=1", Caution,
      "Famous multi-tiered waterfalls in Badian. Canyoneering activities require safety gear."),
    Attraction("2", "Magellan's Cross", Historical, 4.5, "https://picsum.photos/400/300?random=2", Safe,
      "Christian cross planted by Portuguese and Spanish explorers as ordered by Ferdinand Magellan."),
    Attraction("3", "Temple of Leah", Urban, 4.2, "https://picsum.photos/400/300?random=3", Safe,
      "A grand Roman-style temple built as a symbol of undying love."),
    Attraction("4", "Malapascua Island", Beach, 4.9, "https://picsum.photos/400/300?random=4", Caution,
      "Known for diving with thresher sharks. Boat travel required.")
  ]

  const SeedFacilities: seq<EmergencyContact> := [
    EmergencyContact("1", "Cebu City Police Office", "166", Police, "1.2 km"),
    EmergencyContact("2", "Chong Hua Hospital", "(032) 255 8000", Medical, "2.5 km"),
    EmergencyContact("3", "Cebu Fire Station", "160", Fire, "3.0 km"),
    EmergencyContact("4", "Tourist Police Unit", "(032) 253 6666", Tourism, "1.5 km")
  ]

  const SeedAlerts: seq<SafetyAlert> := [
    SafetyAlert("a1", "Heavy Rain Advisory", Medium, "10:00 AM",
      "Expect heavy rainfall in Cebu City and Mandaue. localized flooding possible.", None),
    SafetyAlert("a2", "Traffic Congestion", Low, "09:30 AM",
      "Heavy traffic reported at SRP Viaduct due to ongoing maintenance.", None)
  ]
}
