/** The trivia question bank keyed by destination (src/data/historical-trivia.ts). */
module HistoricalTrivia {

  /** A question, its four answers and the index of the right one. Explanations are
      presentation and left out. */
  datatype TriviaQuestion = TriviaQuestion(question: string, answers: seq<string>, correctAnswerIndex: int)

  const historicalTrivia: map<string, seq<TriviaQuestion>> := map[
    "amsterdam" := [
      TriviaQuestion("In what year was Amsterdam founded?",
        ["1200", "1275", "1300", "1350"], 1),
      TriviaQuestion("Which famous painter lived in Amsterdam and created 'The Night Watch'?",
        ["Vincent van Gogh", "Rembrandt van Rijn", "Johannes Vermeer", "Jan van Eyck"], 1),
      TriviaQuestion("What was the name of the Dutch trading company that operated from Amsterdam in the 17th century?",
        ["West India Company", "Dutch Trading Guild", "East India Company (VOC)", "Amsterdam Merchants Association"], 2)
    ],
    "rotterdam" := [
      TriviaQuestion("What major event in the 1940s led to the rebuilding of Rotterdam's city center?",
        ["Economic recession", "Flooding", "Nazi bombing in WWII", "Urban renewal project"], 2),
      TriviaQuestion("What architectural features are the 'Cube Houses' in Rotterdam known for?",
        ["Underground living spaces", "Tilted cube-shaped homes", "Floating on water", "Made entirely of glass"], 1),
      TriviaQuestion("Which famous bridge in Rotterdam is nicknamed 'The Swan'?",
        ["Willemsbrug", "Erasmusbrug", "Maeslantkering", "Van Brienenoordbrug"], 1)
    ],
    "cologne" := [
      TriviaQuestion("How long did it take to complete the construction of Cologne Cathedral?",
        ["25 years", "100 years", "Over 600 years", "200 years"], 2),
      TriviaQuestion("What Roman emperor founded the city that would become Cologne?",
        ["Julius Caesar", "Augustus", "Claudius", "Vespasian"], 1),
      TriviaQuestion("What famous product was first produced in Cologne in the 18th century?",
        ["Chocolate", "Eau de Cologne", "Beer", "Printing press"], 1)
    ],
    "koblenz" := [
      TriviaQuestion("What is the name of the fortress that overlooks Koblenz?",
        ["Marksburg", "Ehrenbreitstein Fortress", "Stolzenfels Castle", "Rheinfels Castle"], 1),
      TriviaQuestion("What significant geographical feature is found at Koblenz?",
        ["The source of the Rhine", "The confluence of the Rhine and Moselle rivers", "The widest point of the Rhine", "The Rhine Falls"], 1),
      TriviaQuestion("Approximately how old is the city of Koblenz?",
        ["Over 2000 years", "About 1000 years", "About 500 years", "Less than 300 years"], 0)
    ],
    "rudesheim" := [
      TriviaQuestion("What wine is Rüdesheim particularly famous for producing?",
        ["Cabernet Sauvignon", "Riesling", "Merlot", "Chardonnay"], 1),
      TriviaQuestion("What is the name of the famous musical museum in Rüdesheim?",
        ["Bach Museum", "Mechanical Musical Instrument Museum", "Rhine Music Hall", "Wagner Museum"], 1),
      TriviaQuestion("Which historical region is Rüdesheim part of?",
        ["Bavaria", "Rhineland-Palatinate", "Black Forest", "Rhine Gorge"], 3)
    ],
    "basel" := [
      TriviaQuestion("In which country is Basel located?",
        ["Germany", "France", "Switzerland", "Austria"], 2),
      TriviaQuestion("What famous art fair is held annually in Basel?",
        ["Documenta", "Venice Biennale", "Art Basel", "Frieze Art Fair"], 2),
      TriviaQuestion("Which famous historical figure taught at the University of Basel in the 1500s?",
        ["Erasmus", "Martin Luther", "John Calvin", "Leonardo da Vinci"], 0)
    ]
  ]

  /** `getHistoricalTrivia`: the questions for a known key, and none otherwise. */
  function GetHistoricalTrivia(destinationId: string): (r: seq<TriviaQuestion>)
    ensures destinationId in historicalTrivia ==> r == historicalTrivia[destinationId]
    ensures destinationId !in historicalTrivia ==> r == []
    ensures r == [] || (|r| == 3 && forall q :: q in r ==> WellFormed(q))
  {
    if destinationId in historicalTrivia then
      BankShape(destinationId);
      historicalTrivia[destinationId]
    else []
  }

  /** A question is well formed when it offers four answers and marks one of them right. */
  predicate WellFormed(q: TriviaQuestion)
  {
    |q.answers| == 4 && 0 <= q.correctAnswerIndex < 4
  }

  /** The keys are exactly the six destination ids. */
  lemma KeysAreDestinations()
    ensures historicalTrivia.Keys == {"amsterdam", "rotterdam", "cologne", "koblenz", "rudesheim", "basel"}
  {
  }

  /** Every destination has three well-formed questions. */
  lemma BankShape(k: string)
    requires k in historicalTrivia
    ensures |historicalTrivia[k]| == 3
    ensures forall i :: 0 <= i < 3 ==> WellFormed(historicalTrivia[k][i])
  {
  }
}
