/** Every transition moves forward: sessions are finite, and charging ends once. */
module Order {
  import opened Common
  import opened Types
  import opened Machine
  import opened Frame

  lemma LevelBounded(st: State)
    ensures Level(st) <= LAST_RANK
  {
  }

  /** How many steps of a run are transitions. */
  function Transitions(m: Machine, inputs: seq<Input>): nat {
    hide Run;
    if inputs == [] then 0
    else
      var before := inputs[..|inputs| - 1];
      Transitions(m, before) + if Id(Run(m, inputs).state) != Id(Run(m, before).state) then 1 else 0
  }

  lemma {:induction false} TransitionsClimb(m: Machine, inputs: seq<Input>)
    ensures Level(m.state) + Transitions(m, inputs) <= Level(Run(m, inputs).state) <= LAST_RANK
  {
    hide Step;
    LevelBounded(Run(m, inputs).state);
    if inputs != [] {
      var before := inputs[..|inputs| - 1];
      TransitionsClimb(m, before);
      StepClimbs(Run(m, before), inputs[|inputs| - 1]);
    }
  }

  /** A session makes at most fourteen transitions, however many events it takes. */
  lemma {:induction false} AtMostFourteenTransitions(
      config: SessionConfig, cert: Option<CertHash>, p: Option<PauseContext>, inputs: seq<Input>)
    ensures Transitions(Init(config, cert, p), inputs) <= 14
  {
    hide Run, Transitions;
    TransitionsClimb(Init(config, cert, p), inputs);
  }

  /** A state that was left is never entered again. */
  lemma {:induction false} NoReturn(m: Machine, inputs: seq<Input>, more: seq<Input>)
    requires Id(Run(m, inputs).state) != Id(m.state)
    ensures Id(Run(m, inputs + more).state) != Id(m.state)
  {
    hide Step;
    Moved(m, inputs);
    RunSplit(m, inputs, more);
    TransitionsClimb(Run(m, inputs), more);
  }

  lemma {:induction false} Moved(m: Machine, inputs: seq<Input>)
    ensures Id(Run(m, inputs).state) == Id(m.state) || Level(m.state) < Level(Run(m, inputs).state)
  {
    hide Step;
    if inputs != [] {
      var before := inputs[..|inputs| - 1];
      Moved(m, before);
      StepClimbs(Run(m, before), inputs[|inputs| - 1]);
    }
  }
}
