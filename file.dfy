/**
 * The bounded byte queue that the UART driver keeps two of (one for the
 * bytes received, one for the bytes waiting to be transmitted).
 *
 * The driver only uses five operations on it: the two predicates
 * `EstVide` and `EstPleine`, `Enfile` (append at the tail), `Defile`
 * (remove and return the head) and `Reinitialise` (empty it).  They are
 * implemented here as a fixed-capacity ring buffer with a read index, a
 * write index and an element count.
 */
module Files {

  /** One byte, as carried by the serial line. */
  newtype Octet = x: int | 0 <= x < 256

  class File {
    /** Number of slots in the backing storage; fixed at creation. */
    const capacite: nat
    const donnees: array<Octet>
    /** Slot of the oldest byte. */
    var lecture: nat
    /** Slot where the next byte goes. */
    var ecriture: nat
    /** Number of bytes held. */
    var compte: nat

    /** The bytes held, oldest first. */
    ghost var Contents: seq<Octet>

    /** The slot holding the k-th oldest byte (wraps around the storage). */
    function Case(k: nat): (c: nat)
      reads this
      requires lecture < capacite && k <= capacite
      ensures c < capacite
    {
      if lecture + k < capacite then lecture + k else lecture + k - capacite
    }

    ghost predicate Valid()
      reads this, donnees
    {
      0 < capacite && donnees.Length == capacite &&
      lecture < capacite && compte <= capacite && ecriture == Case(compte) &&
      |Contents| == compte &&
      forall k :: 0 <= k < compte ==> Contents[k] == donnees[Case(k)]
    }

    /** A queue is created empty. */
    constructor (capacite: nat)
      requires 0 < capacite
      ensures Valid() && fresh(donnees)
      ensures this.capacite == capacite && Contents == []
    {
      this.capacite := capacite;
      donnees := new Octet[capacite];
      lecture, ecriture, compte := 0, 0, 0;
      Contents := [];
    }

    predicate EstVide()
      reads this, donnees
      requires Valid()
      ensures EstVide() <==> Contents == []
    {
      compte == 0
    }

    predicate EstPleine()
      reads this, donnees
      requires Valid()
      ensures EstPleine() <==> |Contents| == capacite
    {
      compte == capacite
    }

    /** Appends `x` at the tail; never overwrites a byte not yet removed. */
    method Enfile(x: Octet)
      requires Valid() && |Contents| < capacite
      modifies this, donnees
      ensures Valid()
      ensures Contents == old(Contents) + [x]
    {
      donnees[ecriture] := x;
      ecriture := if ecriture + 1 == capacite then 0 else ecriture + 1;
      compte := compte + 1;
      Contents := Contents + [x];
    }

    /** Removes and returns the oldest byte. */
    method Defile() returns (x: Octet)
      requires Valid() && Contents != []
      modifies this
      ensures Valid()
      ensures x == old(Contents)[0] && Contents == old(Contents)[1..]
    {
      x := donnees[lecture];
      assert x == Contents[0];
      lecture := if lecture + 1 == capacite then 0 else lecture + 1;
      compte := compte - 1;
      Contents := Contents[1..];
    }

    /** Empties the queue; the storage keeps its stale bytes. */
    method Reinitialise()
      requires Valid()
      modifies this
      ensures Valid()
      ensures Contents == []
    {
      lecture, ecriture, compte := 0, 0, 0;
      Contents := [];
    }
  }
}
