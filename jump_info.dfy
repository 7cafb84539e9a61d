/** The in-app navigation target that a banner card carries (JumpInfo.kt). */
module JumpInfos {

  /** JumpInfo(url, action, extras). The extras Bundle is modelled by its key/value
      contents; nothing in the engine reads it. */
  datatype JumpInfo = JumpInfo(url: string, action: int, extras: map<string, string>)

  /** The secondary constructor JumpInfo(url, action): an empty Bundle as extras. */
  function JumpInfoOf(url: string, action: int): (j: JumpInfo)
    ensures j.url == url && j.action == action
    ensures j.extras == map[]
  {
    JumpInfo(url, action, map[])
  }

  /** compareTo: 0 for structurally equal targets or for targets that agree on url
      and action; -1 otherwise. It never answers 1. */
  function CompareTo(a: JumpInfo, other: JumpInfo): (r: int)
    ensures r == 0 || r == -1
    ensures r == 0 <==> a.url == other.url && a.action == other.action
  {
    if a == other then 0
    else if a.url == other.url && a.action == other.action then 0
    else -1
  }

  /** The extras of either side never change the outcome of a comparison. */
  lemma ExtrasIgnored(a: JumpInfo, b: JumpInfo, ea: map<string, string>, eb: map<string, string>)
    ensures CompareTo(a.(extras := ea), b.(extras := eb)) == CompareTo(a, b)
  {
  }

  /** Every target compares as 0 to itself. */
  lemma CompareToReflexive(a: JumpInfo)
    ensures CompareTo(a, a) == 0
  {
  }

  /** A zero result does not depend on the order of the operands. */
  lemma CompareToZeroSymmetric(a: JumpInfo, b: JumpInfo)
    ensures CompareTo(a, b) == 0 <==> CompareTo(b, a) == 0
  {
  }

  /** Two targets that differ in url or action each compare as -1 to the other:
      compareTo is an equality test, not an antisymmetric order. */
  lemma CompareToNotAntisymmetric(a: JumpInfo, b: JumpInfo)
    requires CompareTo(a, b) != 0
    ensures CompareTo(a, b) == -1 && CompareTo(b, a) == -1
  {
  }
}
