/** The country lists of position/position.py. */
module MarketLists {
  import opened Markets

  const DEVELOPED: set<string> := {
    "United States", "Australia", "Austria", "Belgium", "Bermuda", "Canada", "Cayman Islands",
    "Cyprus", "Denmark", "European Union", "Finland", "France", "Germany", "Great Britain",
    "Greece", "Guernsey", "Hong Kong", "Iceland", "Ireland", "Isle of Man", "Israel", "Italy",
    "Japan", "Jersey", "Liechtenstein", "Luxembourg", "Macau", "Malta", "Netherlands",
    "New Zealand", "Norway", "Portugal", "Puerto Rico", "Singapore", "Spain", "Sweden",
    "Switzerland", "United Kingdom"
  }

  const EMERGING_A_TO_K: set<string> := {
    "Argentina", "Bahrain", "Bangladesh", "Brazil", "Bulgaria", "Chech Republic", "Chile", "China",
    "Colombia", "Costa Rica", "Croatia", "Czech Republic", "Czechia", "Dominican Republic", "Egypt",
    "Ecuador", "El Salvador", "Estonia", "Hungary", "India", "Indonesia", "Kazakhstan", "Kenya",
    "Korea", "Kuwait"
  }

  const EMERGING_L_TO_V: set<string> := {
    "Latvia", "Lithuania", "Malaysia", "Mexico", "Morocco", "Nigeria", "Oman", "Panama", "Pakistan",
    "Peru", "Philippines", "Poland", "Qatar", "Romania", "Russia", "Russian Federation",
    "Saudi Arabia", "Serbia", "Slovenia", "South Africa", "South Korea", "Sri Lanka", "Taiwan",
    "Thailand", "Turkey", "T\U{FC}rkiye", "UAE", "Ukraine", "United Arab Emirates", "Uruguay",
    "Vietnam"
  }

  const SHIPPED := Lists(DEVELOPED, EMERGING_A_TO_K + EMERGING_L_TO_V)

  lemma OtherNotInFirst()
    ensures OTHER_MARKET !in EMERGING_A_TO_K
  {
    var initials := ["Chile"[0], "China"[0], "Egypt"[0], "India"[0], "Kenya"[0], "Korea"[0]];
    assert OTHER_MARKET[0] == 'O' && OTHER_MARKET[0] !in initials;
  }

  lemma OtherNotInSecond()
    ensures OTHER_MARKET !in EMERGING_L_TO_V
  {
    assert OTHER_MARKET[0] == 'O' && "Qatar"[0] == 'Q';
  }

  lemma ShippedListsAgree()
    ensures Agree(SHIPPED)
  {
    OtherNotInFirst();
    OtherNotInSecond();
    assert US in DEVELOPED;
  }
}
