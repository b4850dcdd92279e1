/** The daily usage prompt: one question per active subscription, walked
    through with a cursor; each answer or skip advances, the last one
    finishes and schedules the dismissal. */
module VibeCheck {
  import opened Seqs
  import opened Wrappers
  import opened Subscriptions

  /** The questions asked: the active records, in list order. */
  function Questions(subs: seq<Sub>): (r: seq<Sub>)
    ensures forall x :: x in r <==> x in subs && x.status == Active
    ensures forall i :: 0 <= i < |r| ==> r[i].status == Active
  {
    Filter(subs, IsActive)
  }

  /** The questions of a concatenation are those of the first part followed
      by those of the second. */
  lemma QuestionsOrder(a: seq<Sub>, b: seq<Sub>)
    ensures Questions(a + b) == Questions(a) + Questions(b)
  {
    FilterConcat(a, b, IsActive);
  }

  /** With `QuestionsOrder`: one question per active record, none for a
      paused one. */
  lemma QuestionsSingle(x: Sub)
    ensures Questions([x]) == if x.status == Active then [x] else []
  {
    assert [x][1..] == [];
  }

  /** `isLast`: `currentIndex >= questions.length - 1`. */
  function IsLast(index: nat, n: nat): (r: bool)
    ensures n == 0 ==> r
    ensures index < n ==> (r <==> index == n - 1)
  {
    index as int >= n as int - 1
  }

  /** The prompt's position: the question shown, and whether the thank-you
      panel has replaced the questions. */
  datatype Cursor = Cursor(index: nat, done: bool)

  /** The cursor move shared by Next and Skip. */
  function Advance(c: Cursor, n: nat): (r: Cursor)
    requires !c.done && c.index < n
    ensures r.index < n
    ensures r.done <==> IsLast(c.index, n)
    ensures r.done ==> r.index == c.index
    ensures !r.done ==> r.index == c.index + 1
  {
    if IsLast(c.index, n) then c.(done := true) else c.(index := c.index + 1)
  }

  /** The cursor after `k` answers or skips starting at question `i`. */
  function Steps(i: nat, n: nat, k: nat): Cursor
    requires i < n && k <= n - i
    decreases k
  {
    if k == 0 then Cursor(i, false)
    else
      var c := Advance(Cursor(i, false), n);
      if c.done then c else Steps(c.index, n, k - 1)
  }

  /** Each question is shown once, in order: fewer steps than questions left
      keep the prompt open on the next question, and the last step finishes
      it on the final question. */
  lemma {:induction false} StepsVisitEachOnce(i: nat, n: nat, k: nat)
    requires i < n && k <= n - i
    ensures k < n - i ==> Steps(i, n, k) == Cursor(i + k, false)
    ensures k == n - i ==> Steps(i, n, k) == Cursor(n - 1, true)
    decreases k
  {
    if k > 0 && !IsLast(i, n) {
      StepsVisitEachOnce(i + 1, n, k - 1);
    }
  }

  /** Slider positions: `halfHours / 2` hours, from 0 to 8 in steps of 0.5. */
  const MaxHalfHours: nat := 16
  const DefaultHalfHours: nat := 2

  function SliderHours(halfHours: nat): (h: real)
    ensures 0.0 <= h && (halfHours <= MaxHalfHours ==> h <= 8.0)
  {
    halfHours as real / 2.0
  }

  /** The overlay's state over the ledger it reads and writes. */
  class Overlay {
    const ledger: Ledger
    const questions: seq<Sub>
    var currentIndex: nat
    var halfHours: nat
    var done: bool
    var dismissScheduled: bool

    ghost predicate Valid()
      reads this
    {
      (|questions| > 0 ==> currentIndex < |questions|)
      && halfHours <= MaxHalfHours
      && (dismissScheduled ==> done)
    }

    /** The visibility guard: the flag is up and some record is active. */
    function Visible(): (r: bool)
      reads this, ledger
      ensures r <==> ledger.shouldShowVibeCheck
                     && exists i :: 0 <= i < |ledger.subscriptions| && ledger.subscriptions[i].status == Active
    {
      var act := Filter(ledger.subscriptions, IsActive);
      assert |act| > 0 ==> act[0] in act;
      assert (exists i :: 0 <= i < |ledger.subscriptions| && ledger.subscriptions[i].status == Active) ==> act != [] by {
        if i :| 0 <= i < |ledger.subscriptions| && ledger.subscriptions[i].status == Active {
          assert ledger.subscriptions[i] in act;
        }
      }
      ledger.shouldShowVibeCheck && |act| > 0
    }

    function Position(): Cursor
      reads this
    {
      Cursor(currentIndex, done)
    }

    constructor (l: Ledger)
      ensures ledger == l && questions == Questions(l.subscriptions)
      ensures currentIndex == 0 && halfHours == DefaultHalfHours && !done && !dismissScheduled
      ensures Valid()
    {
      ledger := l;
      questions := Questions(l.subscriptions);
      currentIndex := 0;
      halfHours := DefaultHalfHours;
      done := false;
      dismissScheduled := false;
    }

    /** Moving the slider. */
    method SetHours(h: nat)
      requires Valid() && h <= MaxHalfHours
      modifies this`halfHours
      ensures halfHours == h && Valid()
    {
      halfHours := h;
    }

    /** The cursor step of Next and Skip, with the slider reset or the
        dismissal scheduled. */
    method Step()
      requires Valid() && !done && |questions| > 0
      modifies this`currentIndex, this`halfHours, this`done, this`dismissScheduled
      ensures Position() == Advance(old(Position()), |questions|)
      ensures done ==> dismissScheduled && halfHours == old(halfHours)
      ensures !done ==> halfHours == DefaultHalfHours && !dismissScheduled
      ensures Valid()
    {
      if IsLast(currentIndex, |questions|) {
        done := true;
        dismissScheduled := true;
      } else {
        currentIndex := currentIndex + 1;
        halfHours := DefaultHalfHours;
      }
    }

    /** `handleNext`: logs the slider value against the current question's
        record, then steps. */
    method HandleNext()
      requires Valid() && !done && |questions| > 0
      modifies this`currentIndex, this`halfHours, this`done, this`dismissScheduled, ledger`subscriptions
      ensures ledger.subscriptions
              == LogUsageAt(old(ledger.subscriptions), questions[old(currentIndex)].id, SliderHours(old(halfHours)))
      ensures Position() == Advance(old(Position()), |questions|)
      ensures done ==> dismissScheduled && halfHours == old(halfHours)
      ensures !done ==> halfHours == DefaultHalfHours
      ensures Valid()
    {
      ledger.LogUsage(questions[currentIndex].id, SliderHours(halfHours));
      Step();
    }

    /** `handleSkip`: steps without logging. */
    method HandleSkip()
      requires Valid() && !done && |questions| > 0
      modifies this`currentIndex, this`halfHours, this`done, this`dismissScheduled
      ensures Position() == Advance(old(Position()), |questions|)
      ensures done ==> dismissScheduled && halfHours == old(halfHours)
      ensures !done ==> halfHours == DefaultHalfHours
      ensures Valid()
    {
      Step();
    }

    /** The scheduled dismissal firing. */
    method TimerElapsed(today: string)
      requires dismissScheduled
      modifies ledger`vibeDate, ledger`shouldShowVibeCheck
      ensures !Visible() && !ledger.shouldShowVibeCheck && ledger.vibeDate == Some(today)
    {
      ledger.DismissVibeCheck(today);
    }

    /** The close button: dismisses at any point. */
    method Close(today: string)
      modifies ledger`vibeDate, ledger`shouldShowVibeCheck
      ensures !Visible() && !ledger.shouldShowVibeCheck && ledger.vibeDate == Some(today)
    {
      ledger.DismissVibeCheck(today);
    }
  }
}
