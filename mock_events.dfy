/** The home page's built-in catalogue of six events, and what the page derives from it. */
module MockData {
  import opened Events

  const JazzNight := Event(
      1, "Rooftop Jazz Night", "Jul 15, 2025", "7:00 PM", "Downtown Loft, Brooklyn",
      "Sarah Chen", ["Music", "Jazz", "Drinks"],
      "https://images.unsplash.com/photo-1493225457124-a3eb161ffa5f?w=800&h=600&fit=crop", 45)

  const CoffeeMeetup := Event(
      2, "Artisan Coffee & Conversation", "Jul 18, 2025", "10:00 AM", "Cozy Corner Café, Manhattan",
      "Mike Rodriguez", ["Coffee", "Networking", "Casual"],
      "https://images.unsplash.com/photo-1501339847302-ac426a4a7cbb?w=800&h=600&fit=crop", 32)

  const GameNight := Event(
      3, "Game Night Extravaganza", "Jul 20, 2025", "6:30 PM", "Community Center, Queens",
      "Alex Johnson", ["Games", "Social", "Indoor"],
      "https://images.unsplash.com/photo-1606092195730-5d7b9af1efc5?w=800&h=600&fit=crop", 28)

  const YogaSession := Event(
      4, "Sunset Yoga Session", "Jul 22, 2025", "5:30 PM", "Central Park, Manhattan",
      "Emma Wilson", ["Wellness", "Outdoor", "Yoga"],
      "https://images.unsplash.com/photo-1544367567-0f2fcb009e0b?w=800&h=600&fit=crop", 36)

  const FoodTruckFestival := Event(
      5, "Food Truck Festival", "Jul 25, 2025", "12:00 PM", "Pier 45, Brooklyn",
      "David Park", ["Food", "Festival", "Outdoor"],
      "https://images.unsplash.com/photo-1565299624946-b28f40a0ca4b?w=800&h=600&fit=crop", 120)

  const BookClub := Event(
      6, "Book Club & Wine", "Jul 28, 2025", "7:00 PM", "Literary Lounge, Manhattan",
      "Lisa Thompson", ["Books", "Wine", "Discussion"],
      "https://images.unsplash.com/photo-1507003211169-0a1dd7228f2d?w=800&h=600&fit=crop", 24)

  /** The catalogue, in display order. */
  const MockEvents: seq<Event> := [JazzNight, CoffeeMeetup, GameNight, YogaSession, FoodTruckFestival, BookClub]

  /** The ids of a list of events. */
  function Ids(events: seq<Event>): (r: seq<int>)
    ensures |r| == |events|
    ensures forall i :: 0 <= i < |events| ==> r[i] == events[i].id
  {
    seq(|events|, i requires 0 <= i < |events| => events[i].id)
  }

  /** Of the last three events, "Outdoor" keeps the yoga session and the food festival. */
  lemma OutdoorAmongLastThree()
    ensures Filter([YogaSession, FoodTruckFestival, BookClub], "", "Outdoor") == [YogaSession, FoodTruckFestival]
  {
    EmptyTermMatches(YogaSession);
    EmptyTermMatches(FoodTruckFestival);
    assert Filter([BookClub], "", "Outdoor") == [];
    assert Filter([FoodTruckFestival, BookClub], "", "Outdoor") == [FoodTruckFestival];
  }

  /** The game night is not outdoor. */
  lemma OutdoorAmongLastFour()
    ensures Filter([GameNight, YogaSession, FoodTruckFestival, BookClub], "", "Outdoor") ==
            [YogaSession, FoodTruckFestival]
  {
    OutdoorAmongLastThree();
  }

  /** Nor is the coffee meetup. */
  lemma OutdoorAmongLastFive()
    ensures Filter([CoffeeMeetup, GameNight, YogaSession, FoodTruckFestival, BookClub], "", "Outdoor") ==
            [YogaSession, FoodTruckFestival]
  {
    OutdoorAmongLastFour();
  }

  /** Choosing "Outdoor" with an empty search leaves the yoga session and the food festival. */
  lemma OutdoorEvents()
    ensures Filter(MockEvents, "", "Outdoor") == [YogaSession, FoodTruckFestival]
    ensures Ids(Filter(MockEvents, "", "Outdoor")) == [4, 5]
  {
    OutdoorAmongLastFive();
  }

  /** The first fourteen tags of the catalogue, all different. */
  const FirstTags: seq<string> := ["Music", "Jazz", "Drinks", "Coffee", "Networking", "Casual", "Games", "Social", "Indoor", "Wellness", "Outdoor", "Yoga", "Food", "Festival"]

  /** The tags after the second "Outdoor". */
  const LastTags: seq<string> := ["Books", "Wine", "Discussion"]

  /** The catalogue's tags, event by event: eighteen, with "Outdoor" twice. */
  lemma MockTags()
    ensures AllTags(MockEvents) == FirstTags + ["Outdoor"] + LastTags
  {
    AllTagsCons(BookClub, []);
    AllTagsCons(FoodTruckFestival, [BookClub]);
    AllTagsCons(YogaSession, [FoodTruckFestival, BookClub]);
    AllTagsCons(GameNight, [YogaSession, FoodTruckFestival, BookClub]);
    AllTagsCons(CoffeeMeetup, [GameNight, YogaSession, FoodTruckFestival, BookClub]);
    AllTagsCons(JazzNight, [CoffeeMeetup, GameNight, YogaSession, FoodTruckFestival, BookClub]);
  }

  /** The second "Outdoor" is the only repetition: it is dropped and nothing else is. */
  lemma MockTagsDistinct()
    ensures Distinct(FirstTags + ["Outdoor"] + LastTags) == FirstTags + LastTags
  {
    assert NoDuplicates(FirstTags) && "Outdoor" in FirstTags;
    assert NoDuplicates(LastTags) && forall y :: y in LastTags ==> y !in FirstTags + ["Outdoor"];
    DistinctOneRepeat(FirstTags, "Outdoor", LastTags);
  }

  /** "all", then the seventeen distinct tags in catalogue order ("Outdoor" once). */
  lemma MockCategories()
    ensures Categories(MockEvents) == ["all"] + FirstTags + LastTags
    ensures |Categories(MockEvents)| == 18
  {
    MockTags();
    MockTagsDistinct();
  }
}
