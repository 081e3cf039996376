/** Classification of one return-to-player (RTP) ratio into a machine state
    (`evaluate_status` in app.py). */
module Status {

  /** The three states; the source shows them as fixed display labels. */
  datatype MachineStatus = Overperforming | Underperforming | Normal

  /** At or above this ratio the machine is paying out ("hot"). */
  const HotRtp: real := 1.2
  /** Below this ratio the machine is taking in ("cold"). */
  const ColdRtp: real := 0.9

  /** The rules are tried in order, first match wins; the contract states the
      resulting partition of the real line, with both boundaries placed. */
  function EvaluateStatus(rtp: real): (s: MachineStatus)
    ensures s == Overperforming <==> HotRtp <= rtp
    ensures s == Underperforming <==> rtp < ColdRtp
    ensures s == Normal <==> ColdRtp <= rtp < HotRtp
  {
    if rtp >= HotRtp then Overperforming
    else if rtp < ColdRtp then Underperforming
    else Normal
  }

  /** How well a machine is paying: Underperforming < Normal < Overperforming. */
  function Heat(s: MachineStatus): nat
  {
    match s
    case Underperforming => 0
    case Normal => 1
    case Overperforming => 2
  }

  /** A higher RTP never yields a colder state. */
  lemma StatusMonotone(a: real, b: real)
    requires a <= b
    ensures Heat(EvaluateStatus(a)) <= Heat(EvaluateStatus(b))
  {
  }

  /** The two boundary values: 0.9 is Normal, 1.2 is Overperforming. */
  lemma StatusBoundaries()
    ensures EvaluateStatus(0.9) == Normal
    ensures EvaluateStatus(1.2) == Overperforming
    ensures EvaluateStatus(0.89) == Underperforming
    ensures EvaluateStatus(1.19) == Normal
  {
  }
}
