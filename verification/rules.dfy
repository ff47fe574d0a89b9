/** The nine threshold rules of the risk score and their weights.
    Scores are counted in hundredths, so 100 stands for a score of 1.0 and
    every comparison against a threshold is exact. */
module Rules {
  import opened Patient

  /** One rule per `if` of the scoring function. */
  datatype Rule =
    | AgeOver50
    | BmiOver30
    | GlucoseOver120
    | BpOver140
    | HdlUnder40
    | LdlOver160
    | Smoker
    | LowActivity
    | FamilyHistory

  /** The rules in the order the scoring function tests them. */
  const Table: seq<Rule> :=
    [AgeOver50, BmiOver30, GlucoseOver120, BpOver140, HdlUnder40,
     LdlOver160, Smoker, LowActivity, FamilyHistory]

  /** Whether rule `r` fires for the metrics `m`. Only the exact string
      "low" counts as low activity; "medium", "high" and anything else do not. */
  predicate Fires(r: Rule, m: Metrics) {
    match r
    case AgeOver50 => m.age > 50
    case BmiOver30 => m.bmi > 30.0
    case GlucoseOver120 => m.glucose > 120
    case BpOver140 => m.bp > 140
    case HdlUnder40 => m.hdl < 40
    case LdlOver160 => m.ldl > 160
    case Smoker => m.smoking
    case LowActivity => m.activityLevel == "low"
    case FamilyHistory => m.familyHistory
  }

  /** The weight a rule adds when it fires, in hundredths. */
  function Weight(r: Rule): nat {
    match r
    case GlucoseOver120 => 15
    case FamilyHistory => 15
    case _ => 10
  }

  /** What rule `r` adds to the score of `m`. */
  function Contribution(r: Rule, m: Metrics): nat {
    if Fires(r, m) then Weight(r) else 0
  }

  /** The sum of the weights of all rules in `rs`, fired or not. */
  function TotalWeight(rs: seq<Rule>): nat {
    if rs == [] then 0 else Weight(rs[0]) + TotalWeight(rs[1..])
  }

  predicate NoDuplicates(rs: seq<Rule>) {
    forall i, j :: 0 <= i < j < |rs| ==> rs[i] != rs[j]
  }

  /** `m'` meets every rule that `m` meets. */
  predicate Dominates(m': Metrics, m: Metrics) {
    forall r :: Fires(r, m) ==> Fires(r, m')
  }

  /** The sum of the weights of the rules in `rs` that fire for `m`; it never
      exceeds the total weight of `rs`. */
  function WeightedSum(rs: seq<Rule>, m: Metrics): (s: nat)
    ensures s <= TotalWeight(rs)
  {
    if rs == [] then 0 else Contribution(rs[0], m) + WeightedSum(rs[1..], m)
  }

  /** The weighted sum is zero exactly when no rule of `rs` fires, and it
      reaches the total weight exactly when every rule of `rs` fires. */
  lemma {:induction false} WeightedSumExtremes(rs: seq<Rule>, m: Metrics)
    ensures WeightedSum(rs, m) == 0 <==> forall i :: 0 <= i < |rs| ==> !Fires(rs[i], m)
    ensures WeightedSum(rs, m) == TotalWeight(rs) <==> forall i :: 0 <= i < |rs| ==> Fires(rs[i], m)
  {
    if rs != [] {
      WeightedSumExtremes(rs[1..], m);
      assert forall i :: 1 <= i < |rs| ==> rs[i] == rs[1..][i - 1];
    }
  }

  /** The score before clamping: the weights of the fired rules of the
      table, between 0 and 1.0. */
  function RawScore(m: Metrics): (s: nat)
    ensures s <= 100
  {
    TableTotal();
    WeightedSum(Table, m)
  }

  /** The score is 0 exactly when no condition holds, and 1.0 exactly when
      all nine hold. */
  lemma RawScoreExtremes(m: Metrics)
    ensures RawScore(m) == 0 <==> forall r :: !Fires(r, m)
    ensures RawScore(m) == 100 <==> forall r :: Fires(r, m)
  {
    TableFacts();
    WeightedSumExtremes(Table, m);
  }

  /** The table lists every rule exactly once, and its weights total 1.0. */
  lemma TableFacts()
    ensures forall r :: r in Table
    ensures NoDuplicates(Table)
    ensures TotalWeight(Table) == 100
  {
    TableComplete();
    TableDistinct();
    TableTotal();
  }

  /** The position of each rule in the table. */
  function Position(r: Rule): nat {
    match r
    case AgeOver50 => 0
    case BmiOver30 => 1
    case GlucoseOver120 => 2
    case BpOver140 => 3
    case HdlUnder40 => 4
    case LdlOver160 => 5
    case Smoker => 6
    case LowActivity => 7
    case FamilyHistory => 8
  }

  lemma TableDistinct()
    ensures NoDuplicates(Table)
  {
  }

  lemma TableComplete()
    ensures forall r :: r in Table
  {
    forall r ensures r in Table {
      match r
      case AgeOver50 => assert Table[0] == r;
      case BmiOver30 => assert Table[1] == r;
      case GlucoseOver120 => assert Table[2] == r;
      case BpOver140 => assert Table[3] == r;
      case HdlUnder40 => assert Table[4] == r;
      case LdlOver160 => assert Table[5] == r;
      case Smoker => assert Table[6] == r;
      case LowActivity => assert Table[7] == r;
      case FamilyHistory => assert Table[8] == r;
    }
  }

  lemma TableTotal()
    ensures TotalWeight(Table) == 100
  {
    assert TotalWeight(Table[8..]) == 15;
    assert TotalWeight(Table[7..]) == 25;
    assert TotalWeight(Table[6..]) == 35;
    assert TotalWeight(Table[5..]) == 45;
    assert TotalWeight(Table[4..]) == 55;
    assert TotalWeight(Table[3..]) == 65;
    assert TotalWeight(Table[2..]) == 80;
    assert TotalWeight(Table[1..]) == 90;
  }

  /** The score is the weighted sum the scoring table lists: each of the nine
      conditions adds its own weight, with no interaction between them. */
  lemma ScoreIsSumOfFiredWeights(m: Metrics)
    ensures RawScore(m) ==
      (if m.age > 50 then 10 else 0)
      + (if m.bmi > 30.0 then 10 else 0)
      + (if m.glucose > 120 then 15 else 0)
      + (if m.bp > 140 then 10 else 0)
      + (if m.hdl < 40 then 10 else 0)
      + (if m.ldl > 160 then 10 else 0)
      + (if m.smoking then 10 else 0)
      + (if m.activityLevel == "low" then 10 else 0)
      + (if m.familyHistory then 15 else 0)
  {
    TableSum(m);
    assert Contribution(AgeOver50, m) == if m.age > 50 then 10 else 0;
    assert Contribution(BmiOver30, m) == if m.bmi > 30.0 then 10 else 0;
    assert Contribution(GlucoseOver120, m) == if m.glucose > 120 then 15 else 0;
    assert Contribution(BpOver140, m) == if m.bp > 140 then 10 else 0;
    assert Contribution(HdlUnder40, m) == if m.hdl < 40 then 10 else 0;
    assert Contribution(LdlOver160, m) == if m.ldl > 160 then 10 else 0;
    assert Contribution(Smoker, m) == if m.smoking then 10 else 0;
    assert Contribution(LowActivity, m) == if m.activityLevel == "low" then 10 else 0;
    assert Contribution(FamilyHistory, m) == if m.familyHistory then 15 else 0;
  }

  /** The table's weighted sum, unrolled rule by rule. */
  lemma TableSum(m: Metrics)
    ensures WeightedSum(Table, m) ==
      Contribution(AgeOver50, m) + Contribution(BmiOver30, m) + Contribution(GlucoseOver120, m)
      + Contribution(BpOver140, m) + Contribution(HdlUnder40, m) + Contribution(LdlOver160, m)
      + Contribution(Smoker, m) + Contribution(LowActivity, m) + Contribution(FamilyHistory, m)
  {
    var t8 := [FamilyHistory];
    var t7 := [LowActivity] + t8;
    var t6 := [Smoker] + t7;
    var t5 := [LdlOver160] + t6;
    var t4 := [HdlUnder40] + t5;
    var t3 := [BpOver140] + t4;
    var t2 := [GlucoseOver120] + t3;
    var t1 := [BmiOver30] + t2;
    assert Table == [AgeOver50] + t1;
    WeightedSumCons(FamilyHistory, [], m);
    WeightedSumCons(LowActivity, t8, m);
    WeightedSumCons(Smoker, t7, m);
    WeightedSumCons(LdlOver160, t6, m);
    WeightedSumCons(HdlUnder40, t5, m);
    WeightedSumCons(BpOver140, t4, m);
    WeightedSumCons(GlucoseOver120, t3, m);
    WeightedSumCons(BmiOver30, t2, m);
    WeightedSumCons(AgeOver50, t1, m);
  }

  lemma WeightedSumCons(r: Rule, rs: seq<Rule>, m: Metrics)
    ensures WeightedSum([r] + rs, m) == Contribution(r, m) + WeightedSum(rs, m)
  {
  }

  /** Firing more rules never lowers the weighted sum. */
  lemma {:induction false} WeightedSumMonotone(rs: seq<Rule>, m: Metrics, m': Metrics)
    requires Dominates(m', m)
    ensures WeightedSum(rs, m) <= WeightedSum(rs, m')
  {
    if rs != [] {
      WeightedSumMonotone(rs[1..], m, m');
    }
  }

  /** Each rule contributes independently: turning on one rule `r`, with every
      other rule unchanged, adds exactly `r`'s weight if `r` is listed. */
  lemma {:induction false} WeightedSumFlip(rs: seq<Rule>, r: Rule, m: Metrics, m': Metrics)
    requires NoDuplicates(rs)
    requires !Fires(r, m) && Fires(r, m')
    requires forall q :: q != r ==> (Fires(q, m') <==> Fires(q, m))
    ensures WeightedSum(rs, m') == WeightedSum(rs, m) + (if r in rs then Weight(r) else 0)
  {
    if rs != [] {
      assert NoDuplicates(rs[1..]) by {
        forall i, j | 0 <= i < j < |rs[1..]| ensures rs[1..][i] != rs[1..][j] {
          assert rs[1..][i] == rs[i + 1] && rs[1..][j] == rs[j + 1];
        }
      }
      WeightedSumFlip(rs[1..], r, m, m');
      assert r in rs <==> rs[0] == r || r in rs[1..];
      if rs[0] == r {
        assert r !in rs[1..] by {
          forall j | 0 <= j < |rs[1..]| ensures rs[1..][j] != r {
            assert rs[1..][j] == rs[j + 1];
          }
        }
      }
    }
  }
}
