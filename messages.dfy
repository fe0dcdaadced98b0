/**
 * The `Message` base class of src/messages.ts and its `makeMessage` factory.
 * A message object holds a type tag, its sender and the fields its own class declares;
 * the subclass fields are kept apart as `fields`, so that they can never overwrite the
 * tag or the sender, which is what the `Omit<M, keyof Message>` bound guarantees.
 */
module Messages {
  /** Peers are identified by number. */
  type PeerId = nat

  /** The tag the base class gives a message; every subclass sets its own. */
  const DefaultType: string := ""

  /** A message of a class whose own fields have type `D`. */
  datatype Message<D> = Message(typ: string, sender: PeerId, fields: D)

  /** `new Message(sender)` for a class that declares no tag and no fields of its own. */
  function NewMessage(sender: PeerId): (m: Message<()>)
    ensures m.sender == sender && m.typ == DefaultType
  {
    Message(DefaultType, sender, ())
  }

  /** The default `isSame`: the two messages carry the same type tag. */
  predicate DefaultIsSame<D, E>(a: Message<D>, b: Message<E>)
  {
    a.typ == b.typ
  }

  /**
   * `makeMessage(c, sender, data)`: a fresh object of the class whose tag is `tag`, with
   * `sender` recorded and every field of `data` copied onto it.
   */
  function MakeMessage<D>(tag: string, sender: PeerId, data: D): Message<D>
  {
    Message(tag, sender, data)
  }

  /** `makeMessage` records the sender, the class's tag and the data, and nothing else. */
  lemma MakeMessageKeepsItsInputs<D>(tag: string, sender: PeerId, data: D)
    ensures MakeMessage(tag, sender, data).sender == sender
    ensures MakeMessage(tag, sender, data).typ == tag
    ensures MakeMessage(tag, sender, data).fields == data
    ensures forall s: PeerId, d: D :: MakeMessage(tag, s, d) == MakeMessage(tag, sender, data) ==> s == sender && d == data
  {
  }

  /** The default `isSame` is reflexive, symmetric and transitive. */
  lemma DefaultIsSameIsEquivalence<D>(a: Message<D>, b: Message<D>, c: Message<D>)
    ensures DefaultIsSame(a, a)
    ensures DefaultIsSame(a, b) <==> DefaultIsSame(b, a)
    ensures DefaultIsSame(a, b) && DefaultIsSame(b, c) ==> DefaultIsSame(a, c)
  {
  }

  /** Two messages made for the same class are always the same under the default `isSame`. */
  lemma SameClassIsDefaultSame<D, E>(tag: string, s1: PeerId, d1: D, s2: PeerId, d2: E)
    ensures DefaultIsSame(MakeMessage(tag, s1, d1), MakeMessage(tag, s2, d2))
  {
  }
}
