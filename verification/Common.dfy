/** Types shared by every part of the node model. */
module Common {

  newtype byte = x: int | 0 <= x < 256

  type Bytes = seq<byte>

  /** A libp2p peer ID is the raw byte string it was decoded from; the empty one means "none". */
  type PeerId = Bytes

  /** The 16-byte packet ID is only ever used as a map key. */
  type PacketId = Bytes

  /** Instants and durations, in nanoseconds. */
  type Time = int

  const SECOND: Time := 1_000_000_000
  const HOUR: Time := 3600 * SECOND

  datatype Option<+T> = None | Some(value: T)

  datatype Result<+T> = Ok(value: T) | Err(error: string)

  /**
    A relay packet. `copy` is not on the wire: it numbers the injected copies, so that two
    copies with the same content can still be told apart in a run.
   */
  datatype Packet = Packet(id: PacketId, sender: Bytes, recipient: Bytes, payload: Bytes, timestamp: int, copy: nat)

  /** A subset has no more elements. */
  lemma {:induction false} SubsetCard<T>(a: set<T>, b: set<T>)
    requires a <= b
    ensures |a| <= |b|
  {
    if a != {} {
      var x :| x in a;
      SubsetCard(a - {x}, b - {x});
    }
  }

  /** An injective image has as many elements as its source. */
  lemma {:induction false} ImageCard<A, B>(a: set<A>, f: map<A, B>, image: set<B>)
    requires a <= f.Keys
    requires forall x, y :: x in a && y in a && f[x] == f[y] ==> x == y
    requires image == set x | x in a :: f[x]
    ensures |image| == |a|
  {
    if a != {} {
      var x :| x in a;
      ImageCard(a - {x}, f, image - {f[x]});
    }
  }
}
