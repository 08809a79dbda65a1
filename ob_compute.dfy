/** The outboard decision callback of the GOR-control experiment: at each
    communication time it reads well PRODUCER1, chokes the well back when its
    gas-oil ratio is too high and shuts it in when its oil rate is too low. */
module ObCompute {
  import opened SimData
  import opened Outboard
  import opened HostKeywords

  /** The one well the callback controls. */
  const Producer: string := "PRODUCER1"
  /** GOR above which the well is choked back. */
  const LimRgo: real := 100.0
  /** Oil rate below which the well is shut in. */
  const LimSto: real := 75.0
  /** Factor applied to the current BHP to obtain the new BHP target. */
  const LimK: real := 1.5
  /** Upper bound on the new BHP target. */
  const BhpCap: real := 2500.0

  /** The callback can run on `s`: at any non-zero time it looks PRODUCER1
      up in the well map, and that lookup fails when the well is missing. */
  predicate HasProducer(s: Snapshot)
  {
    s.timeCurr != 0.0 ==> Producer in s.wells
  }

  /** Gas-oil ratio, defined as 0 when the oil rate is zero or negative so
      that no division by zero can occur. */
  function Gor(sto: real, stg: real): (gor: real)
    ensures sto > 0.0 ==> gor * sto == stg
    ensures sto <= 0.0 ==> gor == 0.0
  {
    if sto > 0.0 then stg / sto else 0.0
  }

  /** The new BHP target: the smaller of 1.5 times the current BHP and the cap. */
  function NewBhp(bhp: real): (target: real)
    ensures target <= BhpCap && target <= bhp * LimK
    ensures target == BhpCap || target == bhp * LimK
  {
    if BhpCap < bhp * LimK then BhpCap else bhp * LimK
  }

  /** The GOR rule fires for well record `w`: without division, exactly when
      the oil rate is positive and the gas rate exceeds 100 times it. */
  predicate ChokeFires(w: WellRecord)
    ensures ChokeFires(w) <==> w.sto > 0.0 && w.stg > LimRgo * w.sto
  {
    Gor(w.sto, w.stg) > LimRgo
  }

  /** The low-rate rule fires for well record `w`. A well that produces no
      oil is always shut in and never choked back. */
  predicate ShutInFires(w: WellRecord)
    ensures w.sto <= 0.0 ==> ShutInFires(w) && !ChokeFires(w)
  {
    w.sto < LimSto
  }

  /** The rules that fire for snapshot `s`, in the order the callback tests
      them, each as the host directive it issues. */
  function Decisions(s: Snapshot): (ds: seq<Directive>)
    requires HasProducer(s)
    ensures s.timeCurr == 0.0 ==> ds == []
    ensures |ds| <= 2
  {
    if s.timeCurr == 0.0 then []
    else
      var w := s.wells[Producer];
      (if ChokeFires(w) then [SetTarget(Producer, NewBhp(w.bhp))] else [])
      + (if ShutInFires(w) then [Shut(Producer)] else [])
  }

  /** The message that announces a directive issued at time `t`. */
  function Announce(d: Directive, t: real): (e: Event)
    ensures e.time == t
    ensures e.ChokingBack? <==> d.SetTarget?
  {
    match d
    case SetTarget(_, _) => ChokingBack(t)
    case Shut(_) => ShuttingIn(t)
  }

  /** The command lines the callback produces for snapshot `s`: the fired
      rules written out as host lines, the ALTER pair of the GOR rule before
      the SHUTIN line of the low-rate rule. */
  function Commands(s: Snapshot): (cs: seq<Command>)
    requires HasProducer(s)
    ensures s.timeCurr == 0.0 ==> cs == []
    ensures |cs| <= 3
  {
    RuleLines(s);
    Render(Decisions(s))
  }

  /** The messages the callback produces for snapshot `s`: one per fired
      rule, in the order the rules fire, each stamped with the current time. */
  function Events(s: Snapshot): (es: seq<Event>)
    requires HasProducer(s)
    ensures s.timeCurr == 0.0 ==> es == []
    ensures |es| <= 2
    ensures forall i :: 0 <= i < |es| ==> es[i].time == s.timeCurr
  {
    var ds := Decisions(s);
    seq(|ds|, i requires 0 <= i < |ds| => Announce(ds[i], s.timeCurr))
  }

  /** Rule by rule, the lines are those of the GOR rule followed by those of
      the low-rate rule. */
  lemma RuleLines(s: Snapshot)
    requires HasProducer(s)
    ensures s.timeCurr == 0.0 ==> Render(Decisions(s)) == []
    ensures s.timeCurr != 0.0 ==>
      var w := s.wells[Producer];
      Render(Decisions(s))
        == (if ChokeFires(w) then [Alter(Producer), Value(NewBhp(w.bhp))] else [])
           + (if ShutInFires(w) then [ShutIn(Producer)] else [])
  {
    if s.timeCurr != 0.0 {
      var w := s.wells[Producer];
      var choke: seq<Directive> := if ChokeFires(w) then [SetTarget(Producer, NewBhp(w.bhp))] else [];
      var shut: seq<Directive> := if ShutInFires(w) then [Shut(Producer)] else [];
      RenderAppend(choke, shut);
    }
  }

  /** Rule by rule, the messages are that of the GOR rule followed by that of
      the low-rate rule. */
  lemma RuleEvents(s: Snapshot)
    requires HasProducer(s)
    ensures s.timeCurr != 0.0 ==>
      var w := s.wells[Producer];
      Events(s)
        == (if ChokeFires(w) then [ChokingBack(s.timeCurr)] else [])
           + (if ShutInFires(w) then [ShuttingIn(s.timeCurr)] else [])
  {
  }

  /** The callback: builds a fresh record and fills it rule by rule. */
  method Compute(simData: Snapshot) returns (obData: ObData)
    requires HasProducer(simData)
    ensures fresh(obData)
    ensures obData.lines == Commands(simData)
    ensures obData.messages == Events(simData)
  {
    RuleLines(simData);
    RuleEvents(simData);
    obData := new ObData();

    if simData.timeCurr == 0.0 {
      // no outboard update before the first timestep
      return;
    }

    var curTim := simData.timeCurr;
    var well := simData.wells[Producer];
    var curBhp, curSto, curStg := well.bhp, well.sto, well.stg;

    var curGor := Gor(curSto, curStg);

    if curGor > LimRgo {
      var newBhp := NewBhp(curBhp);
      obData.InfoToSim(Alter(Producer));
      obData.InfoToSim(Value(newBhp));
      obData.Message(ChokingBack(curTim));
    }

    if curSto < LimSto {
      obData.InfoToSim(ShutIn(Producer));
      obData.Message(ShuttingIn(curTim));
    }
  }

  // ---------------------------------------------------------------------
  // Properties of the callback's output
  // ---------------------------------------------------------------------

  /** At time 0 the record is returned untouched. */
  lemma TimeZeroIsNoOp(s: Snapshot)
    requires s.timeCurr == 0.0
    ensures HasProducer(s)
    ensures Commands(s) == [] && Events(s) == []
  {
  }

  /** The command lines are well formed host input: they read back as the
      fired rules, so every ALTER line is followed by its value line and no
      value line stands without an ALTER line before it. */
  lemma CommandsReadBack(s: Snapshot)
    requires HasProducer(s)
    ensures Parse(Commands(s)) == Some(Decisions(s))
  {
    ParseRender(Decisions(s));
  }

  /** When the GOR exceeds 100 the lines start with ALTER 'PRODUCER1' followed
      by the new target, which is 1.5 times the BHP capped at 2500. */
  lemma ChokeEmitsCappedTarget(s: Snapshot)
    requires s.timeCurr != 0.0 && Producer in s.wells
    requires ChokeFires(s.wells[Producer])
    ensures var cs, bhp := Commands(s), s.wells[Producer].bhp;
      |cs| >= 2 && cs[0] == Alter(Producer) && cs[1].Value?
      && cs[1].target <= BhpCap && cs[1].target <= bhp * LimK
      && (cs[1].target == BhpCap || cs[1].target == bhp * LimK)
  {
  }

  /** When the GOR does not exceed 100 there is no ALTER line and no value line. */
  lemma NoChokeNoAlter(s: Snapshot)
    requires HasProducer(s)
    requires s.timeCurr != 0.0 ==> !ChokeFires(s.wells[Producer])
    ensures forall c :: c in Commands(s) ==> !c.Alter? && !c.Value?
  {
  }

  /** SHUTIN 'PRODUCER1' is written if and only if the oil rate is below 75,
      and then it is the last line. */
  lemma ShutInIffLowRate(s: Snapshot)
    requires s.timeCurr != 0.0 && Producer in s.wells
    ensures ShutIn(Producer) in Commands(s) <==> s.wells[Producer].sto < LimSto
    ensures ShutIn(Producer) in Commands(s) ==> Commands(s)[|Commands(s)| - 1] == ShutIn(Producer)
  {
    RuleLines(s);
  }

  /** A zero or negative oil rate never divides: it only shuts the well in. */
  lemma NoOilOnlyShutsIn(s: Snapshot)
    requires s.timeCurr != 0.0 && Producer in s.wells
    requires s.wells[Producer].sto <= 0.0
    ensures Commands(s) == [ShutIn(Producer)]
    ensures Events(s) == [ShuttingIn(s.timeCurr)]
  {
  }

  /** Two lines per GOR choke and one per shut-in; when both rules fire the
      ALTER pair comes before the SHUTIN line. */
  lemma LineCountAndOrder(s: Snapshot)
    requires s.timeCurr != 0.0 && Producer in s.wells
    ensures var w := s.wells[Producer];
      |Commands(s)| == (if ChokeFires(w) then 2 else 0) + (if ShutInFires(w) then 1 else 0)
    ensures var w := s.wells[Producer];
      ChokeFires(w) && ShutInFires(w) ==>
        Commands(s) == [Alter(Producer), Value(NewBhp(w.bhp)), ShutIn(Producer)]
  {
    RuleLines(s);
  }

  /** The low-rate rule does not depend on the GOR rule: two snapshots whose
      producer has the same oil rate agree on the shut-in, whatever their BHP
      and gas rate. */
  lemma ShutInIndependentOfGor(s1: Snapshot, s2: Snapshot)
    requires s1.timeCurr != 0.0 && Producer in s1.wells
    requires s2.timeCurr != 0.0 && Producer in s2.wells
    requires s1.wells[Producer].sto == s2.wells[Producer].sto
    ensures ShutIn(Producer) in Commands(s1) <==> ShutIn(Producer) in Commands(s2)
    ensures ShuttingIn(s1.timeCurr) in Events(s1) <==> ShuttingIn(s2.timeCurr) in Events(s2)
  {
    RuleLines(s1);
    RuleLines(s2);
    RuleEvents(s1);
    RuleEvents(s2);
  }

  /** Time 10, BHP 2000, oil 80, gas 9000: GOR 112.5 chokes the well back to
      the cap 2500, and oil 80 is not low enough to shut it in. */
  lemma ScenarioChokeToCap()
    ensures var s := Snapshot(10.0, map[Producer := WellRecord(2000.0, 80.0, 9000.0)]);
      Commands(s) == [Alter(Producer), Value(2500.0)] && Events(s) == [ChokingBack(10.0)]
  {
  }

  /** Time 5, BHP 1000, oil 50, no gas: GOR 0, only the shut-in fires. */
  lemma ScenarioLowRateShutIn()
    ensures var s := Snapshot(5.0, map[Producer := WellRecord(1000.0, 50.0, 0.0)]);
      Commands(s) == [ShutIn(Producer)] && Events(s) == [ShuttingIn(5.0)]
  {
  }
}
