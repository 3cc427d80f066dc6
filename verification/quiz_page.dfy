/** The skin quiz: four questions answered one at a time, then a routine
    of three recommended products chosen from the answers, with its total
    price. */
module QuizPage {

  /** The questions' ids, in the order they are asked. */
  const QUESTION_IDS: seq<int> := [1, 2, 3, 4]

  /** Answers by question id. */
  type Answers = map<int, string>

  datatype Recommendation = Recommendation(id: nat, name: string, category: string, price: int)

  predicate Answered(answers: Answers, question: int, value: string) {
    question in answers && answers[question] == value
  }

  function Cleanser(answers: Answers): Recommendation {
    if Answered(answers, 1, "dry") || Answered(answers, 1, "sensitive")
    then Recommendation(1, "Rose Petal Gentle Cleanser", "Cleanser", 68)
    else Recommendation(2, "Purifying Gold Cleanser", "Cleanser", 72)
  }

  function Serum(answers: Answers): Recommendation {
    if Answered(answers, 2, "aging") then Recommendation(3, "Midnight Recovery Elixir", "Serum", 145)
    else if Answered(answers, 2, "pigmentation") then Recommendation(4, "Luminous Glow Serum", "Serum", 125)
    else if Answered(answers, 2, "acne") then Recommendation(5, "Clear Skin Concentrate", "Serum", 98)
    else Recommendation(6, "Radiance Boost Essence", "Serum", 110)
  }

  function Moisturizer(answers: Answers): Recommendation {
    if Answered(answers, 3, "outdoor") || Answered(answers, 1, "dry")
    then Recommendation(7, "Golden Shield Moisturizer SPF50", "Moisturizer", 95)
    else Recommendation(8, "Velvet Cloud Moisturizer", "Moisturizer", 88)
  }

  /** `getRecommendations`: always a cleanser, a serum and a moisturizer,
      in that order. The cleanser is the gentle one (id 1) exactly for dry
      or sensitive skin; the serum follows the concern (aging 3,
      pigmentation 4, acne 5, anything else or nothing 6); the moisturizer
      is the SPF one (id 7) exactly for an outdoor lifestyle or dry skin. */
  function GetRecommendations(answers: Answers): (r: seq<Recommendation>)
    ensures |r| == 3
    ensures r[0].category == "Cleanser" && r[1].category == "Serum" && r[2].category == "Moisturizer"
    ensures r[0].id in {1, 2} && r[1].id in {3, 4, 5, 6} && r[2].id in {7, 8}
    ensures r[0].id == 1 <==> Answered(answers, 1, "dry") || Answered(answers, 1, "sensitive")
    ensures r[1].id == 3 <==> Answered(answers, 2, "aging")
    ensures r[1].id == 4 <==> Answered(answers, 2, "pigmentation")
    ensures r[1].id == 5 <==> Answered(answers, 2, "acne")
    ensures r[2].id == 7 <==> Answered(answers, 3, "outdoor") || Answered(answers, 1, "dry")
  {
    [Cleanser(answers), Serum(answers), Moisturizer(answers)]
  }

  /** The routine total: Σ price over the recommendations. */
  function RoutineTotal(recs: seq<Recommendation>): int {
    if recs == [] then 0 else recs[0].price + RoutineTotal(recs[1..])
  }

  /** Whatever the answers, the routine costs between 254 (68 + 98 + 88)
      and 312 (72 + 145 + 95). */
  lemma RoutineTotalBounds(answers: Answers)
    ensures 254 <= RoutineTotal(GetRecommendations(answers)) <= 312
  {
    var r := GetRecommendations(answers);
    assert r[1..] == [r[1], r[2]] && r[1..][1..] == [r[2]] && r[1..][1..][1..] == [];
    assert RoutineTotal(r[1..][1..]) == r[2].price;
  }

  /** The fourth answer, the routine complexity, never changes the
      recommendations. */
  lemma AnswerFourIsIgnored(answers: Answers, value: string)
    ensures GetRecommendations(answers[4 := value]) == GetRecommendations(answers)
  {
  }

  /** The quiz screen's state. */
  class QuizState {
    var current: nat
    var answers: Answers
    var complete: bool
    var recommendations: seq<Recommendation>

    ghost predicate Valid()
      reads this
    {
      current < |QUESTION_IDS|
    }

    constructor ()
      ensures Valid() && current == 0 && answers == map[] && !complete && recommendations == []
    {
      current := 0;
      answers := map[];
      complete := false;
      recommendations := [];
    }

    /** `handleAnswer`: record the answer to the question on screen; every
        other answer is kept. */
    method HandleAnswer(value: string)
      requires Valid()
      modifies this
      ensures Valid()
      ensures answers == old(answers)[QUESTION_IDS[current] := value]
      ensures forall q :: q in old(answers) && q != QUESTION_IDS[current] ==> q in answers && answers[q] == old(answers)[q]
      ensures current == old(current) && complete == old(complete) && recommendations == old(recommendations)
    {
      answers := answers[QUESTION_IDS[current] := value];
    }

    /** `handleNext`: advance below the last question; at the last, compute
        the recommendations and complete without moving. */
    method HandleNext()
      requires Valid()
      modifies this
      ensures Valid()
      ensures old(current) < |QUESTION_IDS| - 1 ==>
        current == old(current) + 1 && complete == old(complete) && recommendations == old(recommendations)
      ensures old(current) == |QUESTION_IDS| - 1 ==>
        current == old(current) && complete && recommendations == GetRecommendations(old(answers))
      ensures answers == old(answers)
    {
      if current < |QUESTION_IDS| - 1 {
        current := current + 1;
      } else {
        recommendations := GetRecommendations(answers);
        complete := true;
      }
    }

    /** `handleBack`: step back unless on the first question. */
    method HandleBack()
      requires Valid()
      modifies this
      ensures Valid()
      ensures old(current) > 0 ==> current == old(current) - 1
      ensures old(current) == 0 ==> current == 0
      ensures answers == old(answers) && complete == old(complete) && recommendations == old(recommendations)
    {
      if current > 0 {
        current := current - 1;
      }
    }

    /** Retake: back to the first question with no answers, not complete.
        The previous recommendations are left in place. */
    method Retake()
      modifies this
      ensures Valid() && current == 0 && answers == map[] && !complete
      ensures recommendations == old(recommendations)
    {
      complete := false;
      current := 0;
      answers := map[];
    }

    /** The total shown under the routine. */
    function Total(): int
      reads this
    {
      RoutineTotal(recommendations)
    }
  }

  /** Answering all four questions and pressing next after each yields the
      routine for those answers, with a total between 254 and 312. */
  method TakeQuiz(a1: string, a2: string, a3: string, a4: string) returns (total: int)
    ensures 254 <= total <= 312
    ensures total == RoutineTotal(GetRecommendations(map[1 := a1, 2 := a2, 3 := a3, 4 := a4]))
  {
    var q := new QuizState();
    q.HandleAnswer(a1);
    q.HandleNext();
    q.HandleAnswer(a2);
    q.HandleNext();
    q.HandleAnswer(a3);
    q.HandleNext();
    q.HandleAnswer(a4);
    q.HandleNext();
    assert q.complete;
    RoutineTotalBounds(q.answers);
    total := q.Total();
  }
}
