/** One entry of the data a loader delivers to the banner (CardInfo.kt). */
module CardInfos {
  import opened JumpInfos

  /** CardInfo(urlImage, jumpTo, weight). */
  datatype CardInfo = CardInfo(urlImage: string, jumpTo: JumpInfo, weight: int)

  /** The secondary constructor CardInfo(urlImage, jumpTo): weight 0. */
  function CardInfoOf(urlImage: string, jumpTo: JumpInfo): (c: CardInfo)
    ensures c.urlImage == urlImage && c.jumpTo == jumpTo
    ensures c.weight == 0
  {
    CardInfo(urlImage, jumpTo, 0)
  }

  /** compareTo: orders by weight alone, answering 1, -1 or 0. */
  function CompareTo(a: CardInfo, other: CardInfo): (r: int)
    ensures r == 1 <==> a.weight > other.weight
    ensures r == -1 <==> a.weight < other.weight
    ensures r == 0 <==> a.weight == other.weight
  {
    if a.weight > other.weight then 1
    else if a.weight < other.weight then -1
    else 0
  }

  /** The order induced by compareTo: a does not come after b. */
  predicate NotAfter(a: CardInfo, b: CardInfo) {
    CompareTo(a, b) <= 0
  }

  /** Swapping the operands negates the result. */
  lemma CompareToAntisymmetric(a: CardInfo, b: CardInfo)
    ensures CompareTo(a, b) == -CompareTo(b, a)
  {
  }

  /** The image and the jump target never influence the comparison. */
  lemma CompareToIgnoresIdentity(a: CardInfo, b: CardInfo, url: string, jump: JumpInfo)
    ensures CompareTo(a.(urlImage := url, jumpTo := jump), b) == CompareTo(a, b)
    ensures CompareTo(a, b) == 0 <==> a.weight == b.weight
  {
  }

  /** NotAfter is reflexive, total and transitive: a total preorder by weight. */
  lemma NotAfterIsTotalPreorder(a: CardInfo, b: CardInfo, c: CardInfo)
    ensures NotAfter(a, a)
    ensures NotAfter(a, b) || NotAfter(b, a)
    ensures NotAfter(a, b) && NotAfter(b, c) ==> NotAfter(a, c)
  {
  }

  /** Cards built with the two-argument constructor all tie. */
  lemma DefaultWeightsTie(u1: string, j1: JumpInfo, u2: string, j2: JumpInfo)
    ensures CompareTo(CardInfoOf(u1, j1), CardInfoOf(u2, j2)) == 0
  {
  }
}
