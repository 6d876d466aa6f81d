/** `SurveyStates`: the seven steps of the survey, in the order they are declared and asked. There
    is no idle or finished member: "no survey in progress" is an FSM with no state at all. */
module SurveyStates {
  import opened Wrappers

  datatype Step = Destination | DepartureDate | Nights | Adults | Children | Budget | Comment

  /** The members of the states group in declaration order. */
  const Declared: seq<Step> := [Destination, DepartureDate, Nights, Adults, Children, Budget, Comment]

  /** The 1-based position of a step in the declaration. */
  function Index(s: Step): (k: nat)
    ensures 1 <= k <= |Declared| && Declared[k - 1] == s
  {
    match s
    case Destination => 1
    case DepartureDate => 2
    case Nights => 3
    case Adults => 4
    case Children => 5
    case Budget => 6
    case Comment => 7
  }

  /** The attribute name of a member (`SurveyStates.departure_date` and so on). */
  function AttributeName(s: Step): string
  {
    match s
    case Destination => "destination"
    case DepartureDate => "departure_date"
    case Nights => "nights"
    case Adults => "adults"
    case Children => "children"
    case Budget => "budget"
    case Comment => "comment"
  }

  /** The string aiogram stores as the FSM state for a member: group name, colon, attribute. */
  function StateName(s: Step): string
  {
    "SurveyStates:" + AttributeName(s)
  }

  /** The step with the given stored state string, if any. */
  function StepNamed(name: string): (r: Option<Step>)
    ensures r.Some? ==> StateName(r.value) == name
  {
    if name == StateName(Destination) then Some(Destination)
    else if name == StateName(DepartureDate) then Some(DepartureDate)
    else if name == StateName(Nights) then Some(Nights)
    else if name == StateName(Adults) then Some(Adults)
    else if name == StateName(Children) then Some(Children)
    else if name == StateName(Budget) then Some(Budget)
    else if name == StateName(Comment) then Some(Comment)
    else None
  }

  /** The step asked after `s`, in declaration order; none after the comment. */
  function Next(s: Step): (r: Option<Step>)
    ensures r.Some? <==> s != Comment
    ensures r.Some? ==> Index(r.value) == Index(s) + 1
  {
    if Index(s) < |Declared| then Some(Declared[Index(s)]) else None
  }

  /** The step before `s`; none before the destination. */
  function Prev(s: Step): (r: Option<Step>)
    ensures r.Some? <==> s != Destination
    ensures r.Some? ==> Index(r.value) + 1 == Index(s)
  {
    if Index(s) > 1 then Some(Declared[Index(s) - 2]) else None
  }

  /** Exactly seven members, pairwise distinct, covering every step, in forward order. */
  lemma {:induction false} DeclarationShape()
    ensures |Declared| == 7
    ensures forall i, j :: 0 <= i < j < |Declared| ==> Declared[i] != Declared[j]
    ensures forall s: Step :: s in Declared
    ensures forall i :: 0 <= i < |Declared| - 1 ==> Next(Declared[i]) == Some(Declared[i + 1])
  {
    forall i, j | 0 <= i < j < |Declared| ensures Declared[i] != Declared[j] {
      assert Index(Declared[i]) == i + 1 && Index(Declared[j]) == j + 1;
    }
    forall s: Step ensures s in Declared {
      assert Declared[Index(s) - 1] == s;
    }
  }

  lemma StateNamesDiffer(s: Step, t: Step)
    ensures StateName(s) == StateName(t) <==> s == t
  {
    if s != t {
      assert AttributeName(s) != AttributeName(t);
      assert StateName(s)[13..] == AttributeName(s);
      assert StateName(t)[13..] == AttributeName(t);
    }
  }

  /** The stored state strings are pairwise distinct, so a map keyed on them is well defined,
      and each names its own step. */
  lemma StateNamesDistinct(s: Step, t: Step)
    ensures StateName(s) == StateName(t) <==> s == t
    ensures StepNamed(StateName(s)) == Some(s)
  {
    StateNamesDiffer(s, t);
    forall u: Step ensures StateName(s) == StateName(u) <==> s == u {
      StateNamesDiffer(s, u);
    }
  }

  /** The order the survey asks its steps in, step by step. */
  lemma NextInOrder()
    ensures Next(Destination) == Some(DepartureDate) && Next(DepartureDate) == Some(Nights)
    ensures Next(Nights) == Some(Adults) && Next(Adults) == Some(Children)
    ensures Next(Children) == Some(Budget) && Next(Budget) == Some(Comment)
  {
  }

  /** Forward and backward are inverse: `t` follows `s` exactly when `s` precedes `t`. */
  lemma NextPrev(s: Step, t: Step)
    ensures Next(s) == Some(t) <==> Prev(t) == Some(s)
  {
    DeclarationShape();
    if Prev(t) == Some(s) {
      assert Index(Declared[Index(s)]) == Index(s) + 1;
    }
    if Next(s) == Some(t) {
      assert Declared[Index(t) - 2] == Declared[Index(s) - 1];
    }
  }
}
