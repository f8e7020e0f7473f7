/**
 * Two names of one set of payments need not tie (apps/api/src/domain/rca.ts:335-353): the window
 * counts are the same, the baseline counts go by name. On this input the name that is kept has
 * less than the threshold of the excess of the name that is dropped.
 */
module TwinSlices {
  import opened Wrappers
  import opened SliceLabels
  import opened SliceCovers
  import opened SlicePruning
  import opened RootCause

  function Payment(failed: bool, bank: Option<string>, method_: string): Observation {
    Observation(failed, map["bank" := bank, "method" := Some(method_)])
  }

  const CARD_FAILED := Payment(true, Some("HDFC"), "card")
  const CARD_OK := Payment(false, Some("HDFC"), "card")
  const NET_FAILED := Payment(true, Some("HDFC"), "netbanking")
  const NET_OK := Payment(false, Some("HDFC"), "netbanking")
  const UPI_OK := Payment(false, None, "upi")

  const BANK := Tuple(["bank"], ["HDFC"])
  const CARD := Tuple(["method"], ["card"])

  function Copies(o: Observation, n: nat): seq<Observation> {
    seq(n, _ => o)
  }

  /** Ten failed card payments of one bank, among thirty payments without a bank. */
  function Window(): seq<Observation> {
    [] + Copies(CARD_FAILED, 10) + Copies(UPI_OK, 30)
  }

  /** The bank used to fail at netbanking, and never at cards. */
  function Baseline(): seq<Observation> {
    [] + Copies(NET_FAILED, 80) + Copies(NET_OK, 20) + Copies(CARD_OK, 100) + Copies(UPI_OK, 800)
  }

  predicate IsDefault(cfg: Config) {
    && cfg.shrinkK == 30.0 && cfg.minAttempts == 8
    && cfg.failureOnly == {"failure_code"} && cfg.absenceValues == {"none", "false"}
  }

  // ---- Counting copies ----

  lemma {:induction false} CountCopies(obs: seq<Observation>, o: Observation, n: nat, t: Tuple,
                                       failureOnly: set<string>)
    requires |t.names| == |t.values|
    ensures |AttemptSet(obs + Copies(o, n), t.names, t.values, failureOnly)|
         == |AttemptSet(obs, t.names, t.values, failureOnly)|
            + (if Attempts(o, t.names, t.values, failureOnly) then n else 0)
    ensures |FailureSet(obs + Copies(o, n), t.names, t.values)|
         == |FailureSet(obs, t.names, t.values)| + (if Fails(o, t.names, t.values) then n else 0)
    ensures Failures(obs + Copies(o, n)) == Failures(obs) + (if o.failed then n else 0)
    decreases n
  {
    hide Attempts, Fails;
    if n == 0 {
      assert obs + Copies(o, 0) == obs;
    } else {
      CountCopies(obs, o, n - 1, t, failureOnly);
      var front := obs + Copies(o, n - 1);
      assert obs + Copies(o, n) == front + [o];
      CountOne(front, o, t, failureOnly);
    }
  }

  lemma CountOne(front: seq<Observation>, o: Observation, t: Tuple, failureOnly: set<string>)
    requires |t.names| == |t.values|
    ensures |AttemptSet(front + [o], t.names, t.values, failureOnly)|
         == |AttemptSet(front, t.names, t.values, failureOnly)|
            + (if Attempts(o, t.names, t.values, failureOnly) then 1 else 0)
    ensures |FailureSet(front + [o], t.names, t.values)|
         == |FailureSet(front, t.names, t.values)| + (if Fails(o, t.names, t.values) then 1 else 0)
    ensures Failures(front + [o]) == Failures(front) + (if o.failed then 1 else 0)
  {
    hide Attempts, Fails, Failures;
    OneMoreAttempt(front, o, t, failureOnly);
    OneMoreFailure(front, o, t);
    OneMoreFailed(front, o);
  }

  lemma OneMoreAttempt(front: seq<Observation>, o: Observation, t: Tuple, failureOnly: set<string>)
    requires |t.names| == |t.values|
    ensures |AttemptSet(front + [o], t.names, t.values, failureOnly)|
         == |AttemptSet(front, t.names, t.values, failureOnly)|
            + (if Attempts(o, t.names, t.values, failureOnly) then 1 else 0)
  {
    hide Attempts;
    var before, after :=
        AttemptSet(front, t.names, t.values, failureOnly), AttemptSet(front + [o], t.names, t.values, failureOnly);
    if Attempts(o, t.names, t.values, failureOnly) {
      assert after == before + {|front|};
    } else {
      assert after == before;
    }
  }

  lemma OneMoreFailure(front: seq<Observation>, o: Observation, t: Tuple)
    requires |t.names| == |t.values|
    ensures |FailureSet(front + [o], t.names, t.values)|
         == |FailureSet(front, t.names, t.values)| + (if Fails(o, t.names, t.values) then 1 else 0)
  {
    hide Fails;
    var before, after := FailureSet(front, t.names, t.values), FailureSet(front + [o], t.names, t.values);
    if Fails(o, t.names, t.values) {
      assert after == before + {|front|};
    } else {
      assert after == before;
    }
  }

  lemma OneMoreFailed(front: seq<Observation>, o: Observation)
    ensures Failures(front + [o]) == Failures(front) + (if o.failed then 1 else 0)
  {
    var all := front + [o];
    var before, after := set i: nat | i < |front| && front[i].failed, set i: nat | i < |all| && all[i].failed;
    if o.failed {
      assert after == before + {|front|};
    } else {
      assert after == before;
    }
  }

  lemma Nothing(t: Tuple, failureOnly: set<string>)
    requires |t.names| == |t.values|
    ensures |AttemptSet([], t.names, t.values, failureOnly)| == |FailureSet([], t.names, t.values)| == Failures([]) == 0
  {
  }

  /** Which payments are in which slice. */
  lemma InSlices(failed: bool, bank: Option<string>, method_: string, failureOnly: set<string>)
    requires failureOnly == {"failure_code"}
    ensures var o := Payment(failed, bank, method_);
            && (Attempts(o, BANK.names, BANK.values, failureOnly) <==> bank == Some("HDFC"))
            && (Attempts(o, CARD.names, CARD.values, failureOnly) <==> method_ == "card")
            && (Fails(o, BANK.names, BANK.values) <==> failed && bank == Some("HDFC"))
            && (Fails(o, CARD.names, CARD.values) <==> failed && method_ == "card")
  {
    var o := Payment(failed, bank, method_);
    assert DimOf(o, "bank") == bank && DimOf(o, "method") == Some(method_);
    assert BANK.names[0] == "bank" && CARD.names[0] == "method";
  }

  lemma WindowCounts(t: Tuple, failureOnly: set<string>)
    requires t in {BANK, CARD} && failureOnly == {"failure_code"}
    ensures |AttemptSet(Window(), t.names, t.values, failureOnly)| == 10
    ensures |FailureSet(Window(), t.names, t.values)| == 10 && |Window()| == 40
  {
    hide Attempts, Fails, AttemptSet, FailureSet;
    InSlices(true, Some("HDFC"), "card", failureOnly);
    InSlices(false, None, "upi", failureOnly);
    Nothing(t, failureOnly);
    CountCopies([], CARD_FAILED, 10, t, failureOnly);
    CountCopies([] + Copies(CARD_FAILED, 10), UPI_OK, 30, t, failureOnly);
  }

  lemma BaselineCounts(t: Tuple, failureOnly: set<string>)
    requires t in {BANK, CARD} && failureOnly == {"failure_code"}
    ensures |AttemptSet(Baseline(), t.names, t.values, failureOnly)| == (if t == BANK then 200 else 100)
    ensures |FailureSet(Baseline(), t.names, t.values)| == (if t == BANK then 80 else 0)
    ensures Failures(Baseline()) == 80 && |Baseline()| == 1000
  {
    hide Attempts, Fails, AttemptSet, FailureSet, Failures;
    InSlices(true, Some("HDFC"), "netbanking", failureOnly);
    InSlices(false, Some("HDFC"), "netbanking", failureOnly);
    InSlices(false, Some("HDFC"), "card", failureOnly);
    InSlices(false, None, "upi", failureOnly);
    Nothing(t, failureOnly);
    var a := [] + Copies(NET_FAILED, 80);
    var b := a + Copies(NET_OK, 20);
    var c := b + Copies(CARD_OK, 100);
    CountCopies([], NET_FAILED, 80, t, failureOnly);
    CountCopies(a, NET_OK, 20, t, failureOnly);
    CountCopies(b, CARD_OK, 100, t, failureOnly);
    CountCopies(c, UPI_OK, 800, t, failureOnly);
  }

  /** Both names cover the same payments of the window. */
  lemma SamePayments(failureOnly: set<string>)
    requires failureOnly == {"failure_code"}
    ensures AttemptSet(Window(), BANK.names, BANK.values, failureOnly)
         == AttemptSet(Window(), CARD.names, CARD.values, failureOnly)
    ensures FailureSet(Window(), BANK.names, BANK.values) == FailureSet(Window(), CARD.names, CARD.values)
  {
    hide Attempts, Fails;
    InSlices(true, Some("HDFC"), "card", failureOnly);
    InSlices(false, None, "upi", failureOnly);
    forall i | 0 <= i < |Window()|
      ensures Attempts(Window()[i], BANK.names, BANK.values, failureOnly)
         <==> Attempts(Window()[i], CARD.names, CARD.values, failureOnly)
      ensures Fails(Window()[i], BANK.names, BANK.values) <==> Fails(Window()[i], CARD.names, CARD.values)
    {
      assert Window()[i] == if i < 10 then CARD_FAILED else UPI_OK;
    }
  }

  /** Both pass the filters, and the bank has less than four fifths of the cards' excess. */
  lemma BankFallsShort(cfg: Config)
    requires IsDefault(cfg)
    ensures var pooled := PooledRate(Window(), Baseline());
            var bank := Excess(CountsOf(Window(), BANK.names, BANK.values, cfg.failureOnly),
                               CountsOf(Baseline(), BANK.names, BANK.values, cfg.failureOnly), pooled, cfg.shrinkK);
            var card := Excess(CountsOf(Window(), CARD.names, CARD.values, cfg.failureOnly),
                               CountsOf(Baseline(), CARD.names, CARD.values, cfg.failureOnly), pooled, cfg.shrinkK);
            0.0 < bank < 0.8 * card
    ensures Passes(Window(), Baseline(), cfg, BANK.names, BANK.values)
    ensures Passes(Window(), Baseline(), cfg, CARD.names, CARD.values)
  {
    hide AttemptSet, FailureSet, Window, Baseline, LabelsIn;
    WindowCounts(BANK, cfg.failureOnly);
    WindowCounts(CARD, cfg.failureOnly);
    BaselineCounts(BANK, cfg.failureOnly);
    BaselineCounts(CARD, cfg.failureOnly);
    assert Baseline() != [];
    assert PooledRate(Window(), Baseline()) == 0.08;
  }

  // ---- The two candidates ----

  lemma LabelInWindow(text: string)
    requires Occurs(Window(), BANK.names, text)
    ensures text == LabelOf(BANK.names, BANK.values)
  {
    hide LabelOf;
    var i :| 0 <= i < |Window()| && KeyFor(BANK.names, Dims(Window()[i], BANK.names)) == Some(text);
    assert Window()[i] in {CARD_FAILED, UPI_OK};
    assert Dims(Window()[i], BANK.names)[0] == DimOf(Window()[i], "bank");
    assert Known(Dims(Window()[i], BANK.names)).value == BANK.values;
  }

  /** The bank's label names no absence. */
  lemma NoAbsence(cfg: Config)
    requires IsDefault(cfg)
    ensures var read := ReadBack(LabelOf(BANK.names, BANK.values));
            |set i: nat | i < |read| && read[i] in cfg.absenceValues| == 0
  {
    BankReadsBack();
    var read := ReadBack(LabelOf(BANK.names, BANK.values));
    hide ReadBack, LabelOf;
    assert read[0] == "HDFC" && |"HDFC"| == 4 && "HDFC"[0] == 'H' && "none"[0] == 'n' && "false"[0] == 'f';
    assert (set i: nat | i < |read| && read[i] in cfg.absenceValues) == {};
  }

  lemma BankReadsBack()
    ensures ReadBack(LabelOf(BANK.names, BANK.values)) == ["HDFC"]
  {
    hide LabelOf, Split, ValuesOf;
    assert Plain(BANK.names[0]);
    var part := Part("bank", "HDFC");
    assert part == "bank=HDFC";
    assert forall j :: 0 <= j < |part| ==> part[j] != ' ';
    assert CleanLast(part);
    assert Parts(BANK.names, BANK.values)[0] == part;
    LabelGivesValues(BANK.names, BANK.values);
  }

  /**
   * Of the two candidates the bank, tried first, is the one that is kept; nothing explains it; and it
   * accounts for the cards' excess neither without a drop nor with one.
   */
  lemma TwinsNeedNotTie(b: Candidate, c: Candidate, cfg: Config)
    requires IsDefault(cfg) && Sound(b, BANK, Window(), Baseline(), cfg) && Sound(c, CARD, Window(), Baseline(), cfg)
    ensures b.signature == c.signature && BestNamed([b, c], c.signature) == Some(b)
    ensures Survives([b], 0.8, 0)
    ensures 0.0 < b.excess && !AtLeast(b.excess, c.excess, 0.8, 0) && !AtLeast(b.excess, c.excess, 0.8, 1)
  {
    hide Window, Baseline, Bits.Bit, AttemptSet, FailureSet, PooledRate, Excess, Occurs, Reads, ReadBack, LabelOf;
    hide Passes;
    SamePayments(cfg.failureOnly);
    BankFallsShort(cfg);
    LabelInWindow(b.text);
    NoAbsence(cfg);
    assert [b, c][..1] == [b] && [b][..0] == [];
    assert BestNamed([b], c.signature) == Some(b) && !Preferred(c, b);
    assert Power(0.8, 1) == 0.8 * Power(0.8, 0) == 0.8;
  }
}
