/**
 * The fixed catalogue of date ideas the monthly planner draws from: eight
 * low-budget, eight mid-range and seven splurge ideas, each tagged with a
 * budget tier, a vibe, an energy level and whether it happens indoors or
 * outdoors.
 */
module Catalog {

  datatype Tier = Low | Mid | High

  datatype Vibe = Comfort | Adventure | Romantic | Chill

  /** How much energy an idea asks for: Low is calm, High is energetic. */
  datatype EnergyLevel = Low | High

  datatype Environment = Indoor | Outdoor

  /** A catalogue entry; its first five fields are what a date plan shows. */
  datatype DateIdea = DateIdea(
    title: string,
    location: string,
    cost: string,
    tags: seq<string>,
    description: string,
    budgetTier: Tier,
    vibe: Vibe,
    energyLevel: EnergyLevel,
    environment: Environment)

  const DateIdeas: seq<DateIdea> := [
    DateIdea(
      "Picnic in the Park 🧺", "Local City Park", "$15.00",
      ["Relaxing", "Nature", "Comfort"],
      "Simple pleasures are the best. Homemade sandwiches and fresh air.",
      Tier.Low, Vibe.Comfort, EnergyLevel.Low, Outdoor),
    DateIdea(
      "Street Art Hunt 🎨", "Downtown Alleys", "Free",
      ["Active", "Urban", "Creative"],
      "Explore the city's hidden murals. Great for photos and walking.",
      Tier.Low, Vibe.Adventure, EnergyLevel.High, Outdoor),
    DateIdea(
      "Stargazing Night 🌌", "Observatory Hill", "Free",
      ["Romantic", "Nature", "Chill"],
      "Bring a blanket and a thermos of hot cocoa. Watch the stars together.",
      Tier.Low, Vibe.Romantic, EnergyLevel.Low, Outdoor),
    DateIdea(
      "Home Movie Marathon 🎬", "Living Room", "$10.00",
      ["Cozy", "Indoor", "Chill"],
      "Popcorn, snacks, and your favorite trilogy. Pajamas mandatory.",
      Tier.Low, Vibe.Comfort, EnergyLevel.Low, Indoor),
    DateIdea(
      "Sunset Beach Walk 🌅", "West Coast Beach", "Free",
      ["Romantic", "Nature", "Active"],
      "Walk barefoot in the sand as the sun goes down. Classic and perfect.",
      Tier.Low, Vibe.Romantic, EnergyLevel.Low, Outdoor),
    DateIdea(
      "Local Museum Day 🏛️", "City Museum", "$25.00",
      ["Culture", "Indoor", "Learning"],
      "Get cultured and discuss art or history. Often free for locals!",
      Tier.Low, Vibe.Chill, EnergyLevel.Low, Indoor),
    DateIdea(
      "Farmer's Market Run 🥕", "Town Square", "$20.00",
      ["Foodie", "Morning", "Active"],
      "Support local. Buy fresh ingredients and cook a meal together later.",
      Tier.Low, Vibe.Comfort, EnergyLevel.High, Outdoor),
    DateIdea(
      "Coffee Shop Board Games ☕", "The Daily Grind", "$18.00",
      ["Playful", "Indoor", "Chill"],
      "Sip lattes and get competitive with Scrabble or Catan.",
      Tier.Low, Vibe.Comfort, EnergyLevel.Low, Indoor),
    DateIdea(
      "Italian Dinner 🍝", "Tony's Trattoria", "$70.00",
      ["Classic", "Romantic", "Food"],
      "Candlelight, pasta, and wine. You can't go wrong with the classics.",
      Tier.Mid, Vibe.Romantic, EnergyLevel.Low, Indoor),
    DateIdea(
      "Ax Throwing / Arcade 🕹️", "The Rec Room", "$60.00",
      ["Fun", "Active", "Playful"],
      "Unleash your inner child. Competitive fun is great for bonding.",
      Tier.Mid, Vibe.Adventure, EnergyLevel.High, Indoor),
    DateIdea(
      "Pottery Class 🏺", "Clay Studio", "$90.00",
      ["Creative", "Learning", "Fun"],
      "Get your hands dirty! Create a mug or bowl to keep forever.",
      Tier.Mid, Vibe.Adventure, EnergyLevel.Low, Indoor),
    DateIdea(
      "Live Jazz Club 🎷", "Blue Note Basement", "$80.00",
      ["Music", "Nightlife", "Classy"],
      "Smooth tunes and craft cocktails in an intimate setting.",
      Tier.Mid, Vibe.Romantic, EnergyLevel.Low, Indoor),
    DateIdea(
      "Botanical Garden 🌺", "City Gardens", "$40.00",
      ["Nature", "Beautiful", "Chill"],
      "Wander through exotic plants and flowers. Very instagrammable.",
      Tier.Mid, Vibe.Chill, EnergyLevel.Low, Outdoor),
    DateIdea(
      "Comedy Club 🎤", "Laugh Factory", "$50.00",
      ["Fun", "Nightlife", "Entertainment"],
      "Laughter is the best aphrodisiac. Catch a local set.",
      Tier.Mid, Vibe.Adventure, EnergyLevel.Low, Indoor),
    DateIdea(
      "Bowling & Burgers 🎳", "Strike Zone", "$55.00",
      ["Retro", "Active", "Fun"],
      "Classic date night. Rent the ugly shoes and aim for a strike.",
      Tier.Mid, Vibe.Comfort, EnergyLevel.High, Indoor),
    DateIdea(
      "Wine Tasting 🍷", "Local Vineyard", "$85.00",
      ["Classy", "Daytime", "Foodie"],
      "Sample a flight of local wines and learn about the process.",
      Tier.Mid, Vibe.Chill, EnergyLevel.Low, Indoor),
    DateIdea(
      "Michelin Tasting Menu 🌟", "Top Rated Fusion Spot", "$250.00",
      ["Fancy", "Foodie", "Experience"],
      "A culinary journey for the senses. Dress up and indulge.",
      Tier.High, Vibe.Romantic, EnergyLevel.Low, Indoor),
    DateIdea(
      "Luxury Spa Day 🧖‍♂️", "Resort Spa", "$300.00",
      ["Pampering", "Chill", "Luxury"],
      "Ultimate relaxation. Massage, sauna, and zero worries.",
      Tier.High, Vibe.Comfort, EnergyLevel.Low, Indoor),
    DateIdea(
      "Helicopter Tour 🚁", "Helipad", "$400.00",
      ["Exciting", "View", "Once-in-a-lifetime"],
      "See the city from above. An unforgettable adrenaline rush.",
      Tier.High, Vibe.Adventure, EnergyLevel.High, Outdoor),
    DateIdea(
      "Weekend Getaway 🏨", "Boutique Hotel", "$500.00",
      ["Travel", "Romantic", "Escape"],
      "Pack a bag and escape reality for 48 hours.",
      Tier.High, Vibe.Romantic, EnergyLevel.Low, Indoor),
    DateIdea(
      "Private Boat Rental ⛵", "Marina", "$350.00",
      ["Water", "Luxury", "Private"],
      "Cruise the harbor on your own private vessel. Sunset recommended.",
      Tier.High, Vibe.Adventure, EnergyLevel.Low, Outdoor),
    DateIdea(
      "Orchestra / Ballet 🎻", "Grand Theater", "$200.00",
      ["Culture", "Fancy", "Nightout"],
      "Get dressed to the nines for a night of high culture.",
      Tier.High, Vibe.Romantic, EnergyLevel.Low, Indoor),
    DateIdea(
      "Omakase Experience 🍣", "Sushi Bar", "$180.00",
      ["Foodie", "Intimate", "Experience"],
      "Let the chef decide. Fresh fish flown in daily from Japan.",
      Tier.High, Vibe.Adventure, EnergyLevel.Low, Indoor)
  ]

  /** The catalogue holds 23 ideas. */
  lemma CatalogueSize()
    ensures |DateIdeas| == 23
  {
  }
}
