/** The dashboard: its figures as pure functions of the monthly total and goal,
    the emission level badge, and the two pieces of state it keeps (the user
    type toggle and whether the activity logger is shown). */
module CarbonDashboard {
  import opened Wrappers
  import opened EmissionFactors
  import opened ActivityLogger

  // ---------------------------------------------------------------------------
  // Emission level badge
  // ---------------------------------------------------------------------------

  datatype Level = Low | Moderate | High
  {
    function Color(): string
    {
      match this
      case Low => "success"
      case Moderate => "warning"
      case High => "destructive"
    }

    function Label(): string
    {
      match this
      case Low => "Excellent!"
      case Moderate => "Good"
      case High => "Needs Attention"
    }

    /** The position of the level from best to worst. */
    function Rank(): nat
    {
      match this
      case Low => 0
      case Moderate => 1
      case High => 2
    }
  }

  /** The level of a daily total: up to 5 kg is low, up to 12 kg moderate,
      anything above high. */
  function EmissionLevel(emissions: real): (r: Level)
    ensures r == Low <==> emissions <= 5.0
    ensures r == Moderate <==> 5.0 < emissions <= 12.0
    ensures r == High <==> emissions > 12.0
  {
    if emissions <= 5.0 then Low
    else if emissions <= 12.0 then Moderate
    else High
  }

  /** The badge shown for a daily total: its label and colour follow the
      same thresholds as the level. */
  lemma BadgeOfEmission(e: real)
    ensures EmissionLevel(e).Label() == "Excellent!" <==> e <= 5.0
    ensures EmissionLevel(e).Label() == "Good" <==> 5.0 < e <= 12.0
    ensures EmissionLevel(e).Label() == "Needs Attention" <==> e > 12.0
    ensures EmissionLevel(e).Color() == "success" <==> e <= 5.0
    ensures EmissionLevel(e).Color() == "warning" <==> 5.0 < e <= 12.0
    ensures EmissionLevel(e).Color() == "destructive" <==> e > 12.0
  {
  }

  /** More emissions never earn a better level. */
  lemma EmissionLevelMonotone(a: real, b: real)
    requires a <= b
    ensures EmissionLevel(a).Rank() <= EmissionLevel(b).Rank()
  {
  }

  // ---------------------------------------------------------------------------
  // Monthly goal figures
  // ---------------------------------------------------------------------------

  /** The signed percentage by which the month stays below the goal
      (negative when the goal is exceeded). */
  function ProgressPercent(goal: real, monthly: real): (r: real)
    requires goal != 0.0
    ensures r * goal == (goal - monthly) * 100.0
    ensures goal > 0.0 ==> (r < 0.0 <==> monthly > goal)
  {
    SignOfRatio(goal, goal - monthly);
    (goal - monthly) / goal * 100.0
  }

  /** The figure shown before "% over", as written: the percentage below goal,
      clamped at zero. */
  function OverPercentAsWritten(goal: real, monthly: real): (r: real)
    requires goal != 0.0
    ensures r >= 0.0
    ensures r >= ProgressPercent(goal, monthly)
    ensures r == 0.0 || r == ProgressPercent(goal, monthly)
  {
    if ProgressPercent(goal, monthly) > 0.0 then ProgressPercent(goal, monthly) else 0.0
  }

  /** With a positive goal, the as-written figure is 0 exactly when the month
      is at or over the goal, so an exceeded goal always reads "0% over". */
  lemma OverPercentAsWrittenIsZeroWhenOver(goal: real, monthly: real)
    requires goal > 0.0
    ensures OverPercentAsWritten(goal, monthly) == 0.0 <==> monthly >= goal
  {
    if monthly >= goal {
      assert (goal - monthly) / goal <= 0.0;
    } else {
      assert (goal - monthly) / goal > 0.0;
    }
  }

  /** The dashboard's own figures: 185.7 kg against a 150 kg goal is
      35.7 kg over, yet the "% over" figure reads 0. */
  lemma MockFiguresShowZeroPercentOver()
    ensures GoalGap(150.0, 185.7) == OverGoal(35.7)
    ensures OverPercentAsWritten(150.0, 185.7) == 0.0
    ensures OverPercent(150.0, 185.7) == 23.8
  {
    OverPercentAsWrittenIsZeroWhenOver(150.0, 185.7);
  }

  /** The figure shown before "% over", corrected: the percentage by which the
      month exceeds the goal, clamped at zero. */
  function OverPercent(goal: real, monthly: real): (r: real)
    requires goal > 0.0
    ensures r >= 0.0
    ensures r > 0.0 <==> monthly > goal
    ensures monthly > goal ==> monthly == goal + goal * r / 100.0
  {
    var p := (monthly - goal) / goal * 100.0;
    if monthly > goal then
      assert (monthly - goal) / goal > 0.0;
      p
    else
      0.0
  }

  /** The value of the progress bar: the month as a percentage of the goal,
      capped at 100. */
  function ProgressBarValue(goal: real, monthly: real): (r: real)
    requires goal != 0.0
    ensures r <= 100.0
    ensures r == 100.0 || r == monthly / goal * 100.0
    ensures goal > 0.0 ==> (r == 100.0 <==> monthly >= goal)
    ensures goal > 0.0 && monthly >= 0.0 ==> r >= 0.0
  {
    RatioFacts(goal, monthly);
    var v := monthly / goal * 100.0;
    if v < 100.0 then v else 100.0
  }

  /** A quotient by a positive goal has the sign of its numerator. */
  lemma SignOfRatio(goal: real, x: real)
    requires goal != 0.0
    ensures goal > 0.0 ==> (x / goal < 0.0 <==> x < 0.0)
  {
    if goal > 0.0 {
      if x < 0.0 { assert x / goal < 0.0; } else { assert x / goal >= 0.0; }
    }
  }

  /** Dividing by a positive goal keeps the order against the goal and the sign. */
  lemma RatioFacts(goal: real, monthly: real)
    requires goal != 0.0
    ensures goal > 0.0 ==> (monthly / goal >= 1.0 <==> monthly >= goal)
    ensures goal > 0.0 && monthly >= 0.0 ==> monthly / goal >= 0.0
  {
    if goal > 0.0 {
      if monthly >= goal { assert monthly / goal >= 1.0; }
      else { assert monthly / goal < 1.0; }
      if monthly >= 0.0 { assert monthly / goal >= 0.0; }
    }
  }

  /** The text under the goal bar: how far over or under the goal the month is. */
  datatype GoalStatus = OverGoal(kg: real) | UnderGoal(kg: real)

  function GoalGap(goal: real, monthly: real): (r: GoalStatus)
    ensures r.kg >= 0.0
    ensures r.OverGoal? <==> monthly > goal
    ensures r.OverGoal? ==> monthly == goal + r.kg
    ensures r.UnderGoal? ==> monthly == goal - r.kg
  {
    if monthly > goal then OverGoal(monthly - goal) else UnderGoal(goal - monthly)
  }

  // ---------------------------------------------------------------------------
  // Dashboard state
  // ---------------------------------------------------------------------------

  class Dashboard {
    var userType: UserType
    var showLogger: bool
    /** The mounted activity logger, present exactly while it is shown. */
    var logger: Logger?

    ghost predicate Valid()
      reads this, logger
    {
      (showLogger <==> logger != null)
      && (logger != null ==> logger.Valid() && logger.userType == userType)
    }

    constructor ()
      ensures Valid()
      ensures userType == Individual && !showLogger
    {
      userType := Individual;
      showLogger := false;
      logger := null;
    }

    /** A user type toggle button: sets the type; a mounted logger receives
        the new type as its prop, and nothing else changes. */
    method SetUserType(u: UserType)
      requires Valid()
      modifies this`userType, (if logger == null then {} else {logger})`userType
      ensures Valid()
      ensures userType == u
      ensures logger != null ==> logger.userType == u
      ensures showLogger == old(showLogger) && logger == old(logger)
    {
      userType := u;
      if logger != null {
        logger.userType := u;
      }
    }

    /** "Log Activity": shows the logger; a logger that was not already shown
        is mounted afresh, so its form starts empty. */
    method OpenLogger()
      requires Valid()
      modifies this`showLogger, this`logger
      ensures Valid()
      ensures showLogger && userType == old(userType)
      ensures old(showLogger) ==> logger == old(logger)
      ensures logger.userType == userType
      ensures !old(showLogger) ==>
                fresh(logger) && logger.activeTab == Transport && logger.formData == EmptyForm
                && logger.calculated == None && logger.events == []
    {
      if !showLogger {
        logger := new Logger(userType);
      }
      showLogger := true;
    }

    /** The logger's close callback: hides (and unmounts) the logger. */
    method CloseLogger()
      requires Valid()
      modifies this`showLogger, this`logger
      ensures Valid()
      ensures !showLogger && userType == old(userType)
    {
      showLogger := false;
      logger := null;
    }

    /** Save in the shown logger; the logger closes exactly when a result had
        been calculated. */
    method SaveInLogger()
      requires Valid() && showLogger
      modifies this`showLogger, this`logger, logger`events
      ensures Valid()
      ensures old(logger).events == old(logger.events) + SaveEvents(old(logger.calculated))
      ensures showLogger <==> old(logger.calculated).None?
      ensures showLogger ==> logger == old(logger)
      ensures userType == old(userType)
    {
      var l := logger;
      l.SaveActivity();
      if l.calculated.Some? {
        CloseLogger();
      }
    }

    /** Cancel in the shown logger: it calls its close callback, which hides it. */
    method CancelLogger()
      requires Valid() && showLogger
      modifies this`showLogger, this`logger, logger`events
      ensures Valid()
      ensures old(logger).events == old(logger.events) + [Closed]
      ensures !showLogger && userType == old(userType)
    {
      var l := logger;
      l.Cancel();
      CloseLogger();
    }
  }
}
