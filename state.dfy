/** `Results::State` of code/Results.cpp, and the identical `State` classes
    of sql/Results.cpp and sql/ResultSet.cpp: an `unsigned int` of flags. */
module ResultState {

  /** `Results::State`: an `unsigned int` of flags. */
  datatype State = State(bits: bv32) {

    /** `operator bool`: true exactly when no flag is raised. */
    predicate IsGood()
      ensures IsGood() <==> this == State(0)
    {
      bits == 0
    }

    /** `set(mask)`: the mask's flags are raised. */
    function Set(mask: State): (r: State)
      ensures r.bits & mask.bits == mask.bits && r.bits & bits == bits
      ensures !mask.IsGood() ==> !r.IsGood()
    {
      State(bits | mask.bits)
    }

    /** `get(mask)`: some flag of the mask is raised. The older
        `ResultSet::State::get` converts `bits & mask` to `bool`, which is
        the same test. */
    predicate Get(mask: State)
      ensures Get(mask) ==> !IsGood() && !mask.IsGood()
      ensures mask.bits == 0xFFFF_FFFF ==> (Get(mask) <==> !IsGood())
    {
      bits & mask.bits != 0
    }

    /** `clear(mask)` and `operator&=` as written: `bits &= mask`, which keeps
        the named flags and drops every other one. */
    function ClearAsWritten(mask: State): (r: State)
      ensures r.bits & mask.bits == bits & mask.bits
      ensures r.bits & !mask.bits == 0
    {
      State(bits & mask.bits)
    }

    /** What `clear` is documented to do: reset the named flags only. */
    function Clear(mask: State): (r: State)
      ensures r.bits & mask.bits == 0
      ensures r.bits & !mask.bits == bits & !mask.bits
    {
      State(bits & !mask.bits)
    }

    /** `operator&`: the state `operator&=` leaves, so a flag is raised in
        it only when it is raised on both sides. */
    function Intersect(other: State): (r: State)
      ensures r == ClearAsWritten(other)
    {
      State(bits & other.bits)
    }

    /** `operator|`: the state `operator|=` leaves, so a flag is raised in
        it exactly when it is raised on either side. */
    function Union(other: State): (r: State)
      ensures r == Set(other)
    {
      SetIsOr(this, other);
      State(bits | other.bits)
    }

    /** What the documentation of `operator bool` promises: false exactly
        when `get(fail())` holds. */
    predicate GoodPerDoc()
      ensures IsGood() ==> GoodPerDoc()
    {
      NoFlagNoFail(bits);
      !Get(Fail)
    }
  }

  const Good := State(0)
  const Null := State(1)
  const Fail := State(2)

  lemma MaskValues()
    ensures Good.IsGood() && !Null.IsGood() && !Fail.IsGood()
    ensures !Good.Get(Good) && Null.Get(Null) && Fail.Get(Fail)
    ensures !Null.Get(Fail) && !Fail.Get(Null)
  {
  }

  /** `operator bool` as written is `myBits == 0`, stricter than its
      documentation: the two disagree on a state exactly when some flag is
      raised but fail is not, which for the null and fail flags means null
      raised alone, the state `null()` leaves on a good stream. */
  lemma GoodDiffersFromDoc(s: State)
    ensures s.IsGood() ==> s.GoodPerDoc()
    ensures s.GoodPerDoc() != s.IsGood() <==> !s.IsGood() && !s.Get(Fail)
    ensures s.bits & !(Null.bits | Fail.bits) == 0 ==>
              (s.GoodPerDoc() != s.IsGood() <==> s.Get(Null) && !s.Get(Fail))
    ensures Good.Set(Null).GoodPerDoc() && !Good.Set(Null).IsGood()
  {
    var a := s.bits;
    NoFlagNoFail(a);
    NullOrFail(a);
    assert Good.Set(Null) == Null;
  }

  lemma NoFlagNoFail(a: bv32)
    ensures a == 0 ==> a & 2 == 0
  {
  }

  lemma NullOrFail(a: bv32)
    ensures a & !3 == 0 && a != 0 ==> a & 1 != 0 || a & 2 != 0
  {
  }

  /** A flag is raised in `s & other` only when it is raised in both. */
  lemma IntersectRaises(s: State, other: State, probe: State)
    ensures s.Intersect(other).Get(probe) ==> s.Get(probe) && other.Get(probe)
  {
  }

  /** A flag is raised in `s | other` exactly when it is raised in either. */
  lemma UnionRaises(s: State, other: State, probe: State)
    ensures s.Union(other).Get(probe) <==> s.Get(probe) || other.Get(probe)
  {
    SetKeeps(s, other, probe);
    SetRaises(s, other, probe);
    SetRaisesNothingElse(s, other, probe);
  }

  lemma SetIsOr(s: State, mask: State)
    ensures s.Set(mask) == State(s.bits | mask.bits)
  {
  }

  /** Raising flags never lowers one. */
  lemma SetKeeps(s: State, mask: State, probe: State)
    ensures s.Get(probe) ==> s.Set(mask).Get(probe)
  {
  }

  /** Raising a mask raises every flag of it, and no other. */
  lemma SetRaises(s: State, mask: State, probe: State)
    ensures mask.Get(probe) ==> s.Set(mask).Get(probe)
  {
  }

  lemma SetRaisesNothingElse(s: State, mask: State, probe: State)
    ensures !s.Get(probe) && !mask.Get(probe) ==> !s.Set(mask).Get(probe)
  {
  }

  /** A state with a flag raised is not good; `Set` of a nonempty mask
      always makes a state not good. */
  lemma GoodMeansNoFlag(s: State, mask: State)
    ensures s.IsGood() ==> !s.Get(mask)
    ensures !mask.IsGood() ==> !s.Set(mask).IsGood()
  {
  }

  /** As written, clearing a flag keeps it: a failed state cleared of
      `fail` is still failed, and clearing `null` from a failed null state
      drops the failure instead. */
  lemma ClearAsWrittenKeeps()
    ensures Fail.ClearAsWritten(Fail) == Fail && !Fail.ClearAsWritten(Fail).IsGood()
    ensures Fail.Set(Null).ClearAsWritten(Null) == Null
  {
  }

  /** As written, `clear` leaves no flag outside the mask. */
  lemma ClearAsWrittenKeepsOnlyMask(s: State, mask: State, probe: State)
    ensures !mask.Get(probe) ==> !s.ClearAsWritten(mask).Get(probe)
    ensures s.ClearAsWritten(mask).Get(probe) ==> s.Get(probe)
  {
  }

  /** The documented `clear` lowers exactly the named flags. */
  lemma ClearLowers(s: State, mask: State)
    ensures !s.Clear(mask).Get(mask)
  {
  }

  /** ... and leaves every flag outside the mask as it was. */
  lemma ClearKeepsOthers(s: State, mask: State, probe: State)
    requires mask.bits & probe.bits == 0
    ensures s.Clear(mask).bits & probe.bits == s.bits & probe.bits
  {
  }

  /** Clearing undoes raising, and resets a failed state to good. */
  lemma ClearUndoesSet(s: State, mask: State)
    ensures s.Set(mask).Clear(mask) == s.Clear(mask)
    ensures Fail.Clear(Fail).IsGood()
  {
    var a, m := s.bits, mask.bits;
    OrThenAndNot(a, m);
    assert s.Set(mask).Clear(mask) == State((a | m) & !m) == State(a & !m) == s.Clear(mask);
    AndNotSelf(Fail.bits);
  }

  lemma OrThenAndNot(a: bv32, m: bv32)
    ensures (a | m) & !m == a & !m
  {
  }

  lemma AndNotSelf(m: bv32)
    ensures m & !m == 0
  {
  }
}
