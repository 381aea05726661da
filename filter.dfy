/** The todo list filter: the closed set of filter values and the check that
    a string is one of them. */
module Filter {

  /** `FilterType`: ALL, COMPLETED and PENDING. */
  datatype FilterType = All | Completed | Pending {
    /** The string each member stands for. */
    function Value(): string {
      match this
      case All => "all"
      case Completed => "completed"
      case Pending => "pending"
    }
  }

  /** `Object.values(FilterType)`, in declaration order. */
  const FilterValues: seq<string> := [All.Value(), Completed.Value(), Pending.Value()]

  /** `isValidFilter(value)`: the type guard is sound and complete, accepting
      exactly the strings that some filter member stands for. */
  function IsValidFilter(value: string): (r: bool)
    ensures r <==> exists f: FilterType :: f.Value() == value
  {
    value in FilterValues
  }

  /** There are exactly three filter values, and distinct members stand for
      distinct strings. */
  lemma FilterValuesDistinct()
    ensures |FilterValues| == 3
    ensures forall i, j :: 0 <= i < j < |FilterValues| ==> FilterValues[i] != FilterValues[j]
    ensures forall f: FilterType, g: FilterType :: f.Value() == g.Value() ==> f == g
  {
  }

  /** Every member's value is accepted. */
  lemma MembersAreValid(f: FilterType)
    ensures IsValidFilter(f.Value())
  {
  }

  /** The comparison is exact and case-sensitive. */
  lemma NearMissesAreRejected()
    ensures !IsValidFilter("All") && !IsValidFilter(" all") && !IsValidFilter("all ") && !IsValidFilter("")
    ensures !IsValidFilter("Completed") && !IsValidFilter("PENDING")
  {
  }
}
