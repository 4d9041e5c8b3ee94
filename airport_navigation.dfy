/**
  Airport navigation: the gate and amenity lists narrowed by a terminal filter and a
  free-text search. Both lists are constant; the only state is the two inputs.
 */
module AirportNavigation {
  import opened Lists
  import opened Text

  datatype Status = OnTime | Delayed | Boarding | Departed | Cancelled

  datatype Gate = Gate(
    id: string,
    number: string,
    terminal: string,
    airline: string,
    destination: string,
    departureTime: string,
    status: Status,
    walkingTime: nat)

  datatype AmenityType = Restaurant | Shop | Service

  /** The type as the source spells it, which is what the search sees. */
  function TypeName(t: AmenityType): (name: string)
    ensures name == ToLower(name)
  {
    match t
    case Restaurant => "restaurant"
    case Shop => "shop"
    case Service => "service"
  }

  datatype Amenity = Amenity(
    id: string,
    name: string,
    kind: AmenityType,
    location: string,
    terminal: string,
    description: string)

  const AllTerminals := "all"

  const Gates: seq<Gate> := [
    Gate("g1", "A12", "1", "Air France", "Paris", "10:30", OnTime, 8),
    Gate("g2", "B05", "1", "Lufthansa", "Frankfurt", "11:15", Boarding, 12),
    Gate("g3", "C22", "2", "British Airways", "London", "12:45", Delayed, 15),
    Gate("g4", "A08", "1", "KLM", "Amsterdam", "13:20", OnTime, 6),
    Gate("g5", "D17", "3", "Emirates", "Dubai", "14:50", OnTime, 20),
    Gate("g6", "B12", "1", "Delta", "New York", "16:30", OnTime, 10),
    Gate("g7", "C09", "2", "Singapore Airlines", "Singapore", "23:45", OnTime, 18),
    Gate("g8", "D03", "3", "Qantas", "Sydney", "22:15", Delayed, 22)]

  const Amenities: seq<Amenity> := [
    Amenity("a1", "Café Altitude", Restaurant, "Near Gate A10", "1", "Coffee, pastries, and light meals"),
    Amenity("a2", "Duty Free Zone", Shop, "Terminal 1 Main Hall", "1", "Tax-free luxury goods and souvenirs"),
    Amenity("a3", "Sky Bistro", Restaurant, "Near Gate B08", "1", "Full-service restaurant with international cuisine"),
    Amenity("a4", "Travel Essentials", Shop, "Near Gate C15", "2", "Books, electronics, and travel necessities"),
    Amenity("a5", "Express Spa", Service, "Terminal 2 Upper Level", "2", "Quick massages and beauty treatments"),
    Amenity("a6", "Global Cuisine", Restaurant, "Food Court, Terminal 3", "3", "Food court with multiple international options"),
    Amenity("a7", "Tech Stop", Shop, "Near Gate D10", "3", "Electronics, adapters, and gadgets"),
    Amenity("a8", "Lounge Access", Service, "Terminal 3 Upper Level", "3", "Premium lounge with complimentary refreshments")]

  /** The gate filter's callback: the terminal test first, then the search over number, airline and destination. */
  predicate GateShown(gate: Gate, terminalFilter: string, searchQuery: string)
    ensures GateShown(gate, terminalFilter, searchQuery) ==>
              terminalFilter == AllTerminals || gate.terminal == terminalFilter
    ensures searchQuery == "" ==>
              (GateShown(gate, terminalFilter, searchQuery) <==>
                 terminalFilter == AllTerminals || gate.terminal == terminalFilter)
  {
    if terminalFilter != AllTerminals && gate.terminal != terminalFilter then false
    else if searchQuery != "" then
      var query := ToLower(searchQuery);
      Includes(ToLower(gate.number), query) || Includes(ToLower(gate.airline), query)
      || Includes(ToLower(gate.destination), query)
    else true
  }

  /** The amenity filter's callback: the terminal test first, then the search over name, type and description. */
  predicate AmenityShown(amenity: Amenity, terminalFilter: string, searchQuery: string)
    ensures AmenityShown(amenity, terminalFilter, searchQuery) ==>
              terminalFilter == AllTerminals || amenity.terminal == terminalFilter
    ensures searchQuery == "" ==>
              (AmenityShown(amenity, terminalFilter, searchQuery) <==>
                 terminalFilter == AllTerminals || amenity.terminal == terminalFilter)
  {
    if terminalFilter != AllTerminals && amenity.terminal != terminalFilter then false
    else if searchQuery != "" then
      var query := ToLower(searchQuery);
      Includes(ToLower(amenity.name), query) || Includes(ToLower(TypeName(amenity.kind)), query)
      || Includes(ToLower(amenity.description), query)
    else true
  }

  function FilteredGates(gates: seq<Gate>, terminalFilter: string, searchQuery: string): (shown: seq<Gate>)
    ensures IsSubsequence(shown, gates)
  {
    Filter((g: Gate) => GateShown(g, terminalFilter, searchQuery), gates)
  }

  function FilteredAmenities(amenities: seq<Amenity>, terminalFilter: string, searchQuery: string): (shown: seq<Amenity>)
    ensures IsSubsequence(shown, amenities)
  {
    Filter((a: Amenity) => AmenityShown(a, terminalFilter, searchQuery), amenities)
  }

  /**
    A listed gate is shown exactly when the terminal filter is "all" or names its terminal,
    and, for a non-empty query, the lower-cased query occurs in its lower-cased number,
    airline or destination. A gate in another terminal is hidden whatever the query.
   */
  lemma FilteredGatesMembership(gates: seq<Gate>, terminalFilter: string, searchQuery: string, g: Gate)
    requires g in gates
    ensures g in FilteredGates(gates, terminalFilter, searchQuery) <==>
              (terminalFilter == AllTerminals || g.terminal == terminalFilter)
              && (searchQuery == "" ||
                    Includes(ToLower(g.number), ToLower(searchQuery))
                    || Includes(ToLower(g.airline), ToLower(searchQuery))
                    || Includes(ToLower(g.destination), ToLower(searchQuery)))
  {
    FilterMembership((g: Gate) => GateShown(g, terminalFilter, searchQuery), gates, g);
  }

  /** The same rule for amenities, searching name, type and description. */
  lemma FilteredAmenitiesMembership(amenities: seq<Amenity>, terminalFilter: string, searchQuery: string, a: Amenity)
    requires a in amenities
    ensures a in FilteredAmenities(amenities, terminalFilter, searchQuery) <==>
              (terminalFilter == AllTerminals || a.terminal == terminalFilter)
              && (searchQuery == "" ||
                    Includes(ToLower(a.name), ToLower(searchQuery))
                    || Includes(TypeName(a.kind), ToLower(searchQuery))
                    || Includes(ToLower(a.description), ToLower(searchQuery)))
  {
    FilterMembership((a: Amenity) => AmenityShown(a, terminalFilter, searchQuery), amenities, a);
  }

  /** With terminal "all" and an empty search both lists are shown whole and in order. */
  lemma NoFilterShowsEverything(gates: seq<Gate>, amenities: seq<Amenity>)
    ensures FilteredGates(gates, AllTerminals, "") == gates
    ensures FilteredAmenities(amenities, AllTerminals, "") == amenities
  {
    FilterKeepsAll((g: Gate) => GateShown(g, AllTerminals, ""), gates);
    FilterKeepsAll((a: Amenity) => AmenityShown(a, AllTerminals, ""), amenities);
  }
}
