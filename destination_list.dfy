/**
  The destination explorer: a list of destinations that can be marked as favourites,
  narrowed by region and by a free-text search over name, country and description.
 */
module DestinationList {
  import opened Lists
  import opened Text

  datatype Destination = Destination(
    id: string,
    name: string,
    country: string,
    region: string,
    emoji: string,
    description: string,
    rating: real,
    imageUrl: string,
    favorite: bool)

  const AllRegions := "all"

  /** `getWeatherIcon`: an icon per known region, a cloud for anything else. */
  function WeatherIcon(region: string): (icon: string)
    ensures region == "europe" ==> icon == "\U{1F326}\U{FE0F}"
    ensures region == "asia" || region == "africa" ==> icon == "\U{2600}\U{FE0F}"
    ensures region == "americas" ==> icon == "\U{1F324}\U{FE0F}"
    ensures region == "oceania" ==> icon == "\U{1F30A}"
    ensures icon == "\U{2601}\U{FE0F}" <==> region !in {"europe", "asia", "americas", "africa", "oceania"}
  {
    match region
    case "europe" => "\U{1F326}\U{FE0F}"
    case "asia" => "\U{2600}\U{FE0F}"
    case "americas" => "\U{1F324}\U{FE0F}"
    case "africa" => "\U{2600}\U{FE0F}"
    case "oceania" => "\U{1F30A}"
    case _ => "\U{2601}\U{FE0F}"
  }

  /** `toggleFavorite`'s effect on the list: every destination with the id changes its favourite mark. */
  function Favorited(listed: seq<Destination>, id: string): (r: seq<Destination>)
    ensures |r| == |listed|
    ensures forall k :: 0 <= k < |listed| ==>
              r[k].(favorite := listed[k].favorite) == listed[k]
              && (r[k].favorite <==> (listed[k].favorite != (listed[k].id == id)))
  {
    seq(|listed|, k requires 0 <= k < |listed| =>
      if listed[k].id == id then listed[k].(favorite := !listed[k].favorite) else listed[k])
  }

  lemma ToggleFavoriteTwice(listed: seq<Destination>, id: string)
    ensures Favorited(Favorited(listed, id), id) == listed
  {
    var r := Favorited(Favorited(listed, id), id);
    assert forall k :: 0 <= k < |listed| ==> r[k] == listed[k];
  }

  function InRegion(region: string): Destination -> bool
  {
    (d: Destination) => d.region == region
  }

  /** A destination matches a lower-cased query found in its lower-cased name, country or description. */
  predicate Matches(d: Destination, query: string)
  {
    Includes(ToLower(d.name), query) || Includes(ToLower(d.country), query)
    || Includes(ToLower(d.description), query)
  }

  function MatchesQuery(query: string): Destination -> bool
  {
    (d: Destination) => Matches(d, query)
  }

  /** The list the filter effect shows: the region filter, then the search filter. */
  function Visible(listed: seq<Destination>, region: string, query: string): (r: seq<Destination>)
    ensures IsSubsequence(r, listed)
    ensures forall d :: d in r ==> region == AllRegions || d.region == region
  {
    var byRegion := if region != AllRegions then Filter(InRegion(region), listed) else listed;
    var r := if query != "" then Filter(MatchesQuery(ToLower(query)), byRegion) else byRegion;
    SubsequenceReflexive(listed);
    SubsequenceReflexive(byRegion);
    SubsequenceTransitive(r, byRegion, listed);
    SubsequenceLength(r, byRegion);
    r
  }

  /**
    The shown list keeps the listed order, and a destination is shown exactly when its
    region is the active one (any, for "all") and, for a non-empty query, it matches the
    query case-insensitively.
   */
  lemma VisibleEffect(listed: seq<Destination>, region: string, query: string)
    ensures IsSubsequence(Visible(listed, region, query), listed)
    ensures forall d :: d in listed ==>
              (d in Visible(listed, region, query) <==>
                 (region == AllRegions || d.region == region) && (query == "" || Matches(d, ToLower(query))))
  {
    var byRegion := if region != AllRegions then Filter(InRegion(region), listed) else listed;
    var r := Visible(listed, region, query);
    SubsequenceReflexive(listed);
    SubsequenceReflexive(byRegion);
    SubsequenceTransitive(r, byRegion, listed);
    forall d | d in listed
      ensures d in r <==> (region == AllRegions || d.region == region) && (query == "" || Matches(d, ToLower(query)))
    {
      FilterMembership(InRegion(region), listed, d);
      FilterMembership(MatchesQuery(ToLower(query)), byRegion, d);
    }
  }

  /** An empty query with region "all" shows the whole list. */
  lemma NoFilterShowsAll(listed: seq<Destination>)
    ensures Visible(listed, AllRegions, "") == listed
  {
  }

  const InitialDestinations: seq<Destination> :=
    [
      Destination("1", "Paris", "France", "europe", "🇫🇷",
                  "The City of Light with iconic landmarks like the Eiffel Tower and Louvre Museum.",
                  4.7,
                  "https://plus.unsplash.com/premium_photo-1661919210043-fd847a58522d?q=80&w=2942&auto=format&fit=crop&ixlib=rb-4.1.0&ixid=M3wxMjA3fDB8MHxwaG90by1wYWdlfHx8fGVufDB8fHx8fA%3D%3D",
                  false),
      Destination("2", "Tokyo", "Japan", "asia", "🇯🇵",
                  "A fascinating blend of ultramodern and traditional, from neon-lit skyscrapers to historic temples.",
                  4.9,
                  "https://images.unsplash.com/photo-1540959733332-eab4deabeeaf?q=80&w=2988&auto=format&fit=crop&ixlib=rb-4.1.0&ixid=M3wxMjA3fDB8MHxwaG90by1wYWdlfHx8fGVufDB8fHx8fA%3D%3D",
                  false),
      Destination("3", "New York", "USA", "americas", "🇺🇸",
                  "The Big Apple offers world-class dining, shopping, and entertainment options.",
                  4.6,
                  "https://images.unsplash.com/photo-1499092346589-b9b6be3e94b2?q=80&w=2942&auto=format&fit=crop&ixlib=rb-4.1.0&ixid=M3wxMjA3fDB8MHxwaG90by1wYWdlfHx8fGVufDB8fHx8fA%3D%3D",
                  false),
      Destination("4", "Cape Town", "South Africa", "africa", "🇿🇦",
                  "A stunning coastal city with Table Mountain as its backdrop.",
                  4.5,
                  "https://images.unsplash.com/photo-1496497243327-9dccd845c35f?w=900&auto=format&fit=crop&q=60&ixlib=rb-4.1.0&ixid=M3wxMjA3fDB8MHxzZWFyY2h8MTB8fGNhcGUlMjB0b3dufGVufDB8fDB8fHww",
                  false),
      Destination("5", "Sydney", "Australia", "oceania", "🇦🇺",
                  "Famous for its harbourfront Opera House, beautiful beaches, and vibrant culture.",
                  4.8,
                  "https://images.unsplash.com/photo-1506973035872-a4ec16b8e8d9?q=80&w=3000&auto=format&fit=crop&ixlib=rb-4.1.0&ixid=M3wxMjA3fDB8MHxwaG90by1wYWdlfHx8fGVufDB8fHx8fA%3D%3D",
                  false),
      Destination("6", "Barcelona", "Spain", "europe", "🇪🇸",
                  "Known for its art and architecture, including Gaudí's Sagrada Família.",
                  4.6,
                  "https://images.unsplash.com/photo-1583422409516-2895a77efded?q=80&w=3000&auto=format&fit=crop&ixlib=rb-4.1.0&ixid=M3wxMjA3fDB8MHxwaG90by1wYWdlfHx8fGVufDB8fHx8fA%3D%3D",
                  false),
      Destination("7", "Bangkok", "Thailand", "asia", "🇹🇭",
                  "A city of contrasts with ornate shrines and vibrant street life.",
                  4.4,
                  "https://images.unsplash.com/photo-1694824995159-2093477bc337?q=80&w=1548&auto=format&fit=crop&ixlib=rb-4.1.0&ixid=M3wxMjA3fDB8MHxwaG90by1wYWdlfHx8fGVufDB8fHx8fA%3D%3D",
                  false),
      Destination("8", "Rio de Janeiro", "Brazil", "americas", "🇧🇷",
                  "Famous for its Copacabana beach, Christ the Redeemer statue, and annual carnival.",
                  4.5,
                  "https://images.unsplash.com/photo-1483729558449-99ef09a8c325?q=80&w=3000&auto=format&fit=crop&ixlib=rb-4.1.0&ixid=M3wxMjA3fDB8MHxwaG90by1wYWdlfHx8fGVufDB8fHx8fA%3D%3D",
                  false) ]

  class Explorer {
    var activeRegion: string
    var searchQuery: string
    var filteredDestinations: seq<Destination>
    var listedDestinations: seq<Destination>
    var selectedDestination: Option<Destination>
    var showDialog: bool

    constructor ()
      ensures activeRegion == AllRegions && searchQuery == ""
      ensures filteredDestinations == InitialDestinations && listedDestinations == InitialDestinations
      ensures selectedDestination == None && !showDialog
      ensures Valid()
    {
      activeRegion := AllRegions;
      searchQuery := "";
      filteredDestinations := InitialDestinations;
      listedDestinations := InitialDestinations;
      selectedDestination := None;
      showDialog := false;
      NoFilterShowsAll(InitialDestinations);
    }

    /** The shown list is always the filter effect's result for the current state. */
    predicate Valid()
      reads this
    {
      filteredDestinations == Visible(listedDestinations, activeRegion, searchQuery)
    }

    /** `toggleFavorite`, followed by the filter effect that the changed list triggers. */
    method ToggleFavorite(id: string)
      modifies this
      ensures listedDestinations == Favorited(old(listedDestinations), id)
      ensures activeRegion == old(activeRegion) && searchQuery == old(searchQuery)
      ensures selectedDestination == old(selectedDestination) && showDialog == old(showDialog)
      ensures Valid()
    {
      listedDestinations := Favorited(listedDestinations, id);
      RefreshFiltered();
    }

    /** Choosing a region tab, followed by the filter effect. */
    method SetActiveRegion(region: string)
      modifies this
      ensures activeRegion == region && searchQuery == old(searchQuery)
      ensures listedDestinations == old(listedDestinations)
      ensures selectedDestination == old(selectedDestination) && showDialog == old(showDialog)
      ensures Valid()
    {
      activeRegion := region;
      RefreshFiltered();
    }

    /** Typing in the search box, followed by the filter effect. */
    method SetSearchQuery(query: string)
      modifies this
      ensures searchQuery == query && activeRegion == old(activeRegion)
      ensures listedDestinations == old(listedDestinations)
      ensures selectedDestination == old(selectedDestination) && showDialog == old(showDialog)
      ensures Valid()
    {
      searchQuery := query;
      RefreshFiltered();
    }

    method HandleExplore(destination: Destination)
      modifies this
      ensures selectedDestination == Some(destination) && showDialog
      ensures activeRegion == old(activeRegion) && searchQuery == old(searchQuery)
      ensures listedDestinations == old(listedDestinations) && filteredDestinations == old(filteredDestinations)
      ensures Valid() <==> old(Valid())
    {
      selectedDestination := Some(destination);
      showDialog := true;
    }

    /** The filter effect, run whenever the region, the query or the list changes. */
    method RefreshFiltered()
      modifies this
      ensures Valid()
      ensures activeRegion == old(activeRegion) && searchQuery == old(searchQuery)
      ensures listedDestinations == old(listedDestinations)
      ensures selectedDestination == old(selectedDestination) && showDialog == old(showDialog)
    {
      var result := listedDestinations;
      if activeRegion != AllRegions {
        result := Filter(InRegion(activeRegion), result);
      }
      if searchQuery != "" {
        var query := ToLower(searchQuery);
        result := Filter(MatchesQuery(query), result);
      }
      filteredDestinations := result;
    }
  }
}
