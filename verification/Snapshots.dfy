/** The persisted state as a wire schema: the order and kind of every field. */
module Snapshots {
  import opened Bytes
  import opened Model
  import opened Wire

  /** The configured bounds that the decoder enforces on collections. */
  datatype Bounds = Bounds(shards: nat, history: nat, sessions: nat, workloads: nat)

  const ID: Schema := Fixed(16)
  const LONG: Schema := Uint(8)
  const INDEX: Schema := Scalar(0xFFFF_FFFF)

  /** Fields in a row. */
  function Fields(fields: seq<Schema>): Schema
    decreases |fields|
  {
    if fields == [] then Unit else Pair(fields[0], Fields(fields[1..]))
  }

  lemma {:induction false} FieldsWellFormed(fields: seq<Schema>)
    requires forall i :: 0 <= i < |fields| ==> WellFormed(fields[i])
    ensures WellFormed(Fields(fields))
    ensures fields != [] ==> MinSize(Fields(fields)) >= MinSize(fields[0])
    decreases |fields|
  {
    if fields != [] { FieldsWellFormed(fields[1..]); }
  }

  function DigestFields(): Schema { Fields([Uint(4), LONG]) }

  function DescriptorFields(): Schema { Fields([INDEX, LONG, DigestFields(), INDEX]) }

  function ManifestFields(b: Bounds): Schema {
    Fields([ID, LONG, ID, LONG, LONG, List(b.shards, DescriptorFields()), DigestFields(), Signed])
  }

  function RequestFields(b: Bounds): Schema {
    Fields([ID, ID, LONG, LONG, LONG, ID, LONG, Enum(4), Enum(4), LONG, Signed, ManifestFields(b)])
  }

  function WaveFields(b: Bounds): Schema { Fields([INDEX, List(b.shards, INDEX), LONG]) }

  function EnvelopeFields(b: Bounds): Schema {
    Fields([ID, LONG, Enum(4), LONG, LONG, Uint(4), List(b.shards, WaveFields(b)), Maybe(INDEX), Signed, Signed])
  }

  function ShardFields(): Schema {
    Fields([INDEX, Enum(8), LONG, LONG, LONG, LONG, DigestFields(), Flag, Maybe(ID), Flag, LONG])
  }

  function AttemptFields(): Schema {
    Fields([ID, LONG, INDEX, INDEX, Enum(9), LONG, LONG, DigestFields(), Flag, Flag, Signed, Signed])
  }

  function SessionFields(b: Bounds): Schema {
    Fields([ID, RequestFields(b), Enum(13), Enum(4), EnvelopeFields(b), LONG, LONG,
            List(b.shards, ShardFields()), List(b.history, AttemptFields()), List(b.history, Text),
            LONG, LONG, LONG, LONG, LONG, LONG, LONG, Uint(4), Flag, Flag, Signed, Signed, Enum(33), Text, Text, Maybe(ID)])
  }

  function AccountingFields(): Schema {
    Fields([LONG, LONG, LONG, LONG, LONG, LONG, LONG, LONG, LONG, LONG, LONG, LONG, LONG, LONG, LONG, LONG, Uint(4), Uint(4)])
  }

  function SnapshotFields(b: Bounds): Schema {
    Fields([LONG, LONG, LONG, LONG, List(b.workloads, Fields([ID, LONG])), List(b.sessions, SessionFields(b)), AccountingFields(), LONG])
  }

  lemma BasicsWellFormed()
    ensures WellFormed(INDEX) && MinSize(INDEX) > 0 && WellFormed(DigestFields()) && WellFormed(DescriptorFields())
    ensures MinSize(DescriptorFields()) > 0
    ensures WellFormed(ShardFields()) && MinSize(ShardFields()) > 0 && WellFormed(AttemptFields()) && MinSize(AttemptFields()) > 0
    ensures WellFormed(AccountingFields())
  {
    hide Fields;
    SmallPowers();
    FieldsWellFormed([Uint(4), LONG]);
    FieldsWellFormed([INDEX, LONG, DigestFields(), INDEX]);
    FieldsWellFormed([INDEX, Enum(8), LONG, LONG, LONG, LONG, DigestFields(), Flag, Maybe(ID), Flag, LONG]);
    FieldsWellFormed([ID, LONG, INDEX, INDEX, Enum(9), LONG, LONG, DigestFields(), Flag, Flag, Signed, Signed]);
    FieldsWellFormed([LONG, LONG, LONG, LONG, LONG, LONG, LONG, LONG, LONG, LONG, LONG, LONG, LONG, LONG, LONG, LONG, Uint(4), Uint(4)]);
  }

  lemma RequestWellFormed(b: Bounds)
    ensures WellFormed(RequestFields(b)) && WellFormed(EnvelopeFields(b))
  {
    hide Fields, DigestFields, DescriptorFields;
    BasicsWellFormed();
    FieldsWellFormed([ID, LONG, ID, LONG, LONG, List(b.shards, DescriptorFields()), DigestFields(), Signed]);
    FieldsWellFormed([ID, ID, LONG, LONG, LONG, ID, LONG, Enum(4), Enum(4), LONG, Signed, ManifestFields(b)]);
    FieldsWellFormed([INDEX, List(b.shards, INDEX), LONG]);
    FieldsWellFormed([ID, LONG, Enum(4), LONG, LONG, Uint(4), List(b.shards, WaveFields(b)), Maybe(INDEX), Signed, Signed]);
  }

  lemma SessionWellFormed(b: Bounds)
    ensures WellFormed(SessionFields(b)) && MinSize(SessionFields(b)) > 0
  {
    hide Fields, RequestFields, EnvelopeFields, ShardFields, AttemptFields;
    BasicsWellFormed();
    RequestWellFormed(b);
    FieldsWellFormed([ID, RequestFields(b), Enum(13), Enum(4), EnvelopeFields(b), LONG, LONG,
                      List(b.shards, ShardFields()), List(b.history, AttemptFields()), List(b.history, Text),
                      LONG, LONG, LONG, LONG, LONG, LONG, LONG, Uint(4), Flag, Flag, Signed, Signed, Enum(33), Text, Text, Maybe(ID)]);
  }

  /** The snapshot format is one that the codec theorems cover. */
  lemma SnapshotWellFormed(b: Bounds)
    ensures WellFormed(SnapshotFields(b))
  {
    hide Fields, SessionFields, AccountingFields;
    BasicsWellFormed();
    SessionWellFormed(b);
    FieldsWellFormed([ID, LONG]);
    FieldsWellFormed([LONG, LONG, LONG, LONG, List(b.workloads, Fields([ID, LONG])), List(b.sessions, SessionFields(b)), AccountingFields(), LONG]);
  }

  /** A snapshot reads back as itself exactly when its texts and collections are within bounds,
  and no strict prefix of it reads as anything. */
  lemma SnapshotCodec(b: Bounds, v: Value)
    requires Shaped(SnapshotFields(b), v)
    ensures DecodeAll(SnapshotFields(b), Written(SnapshotFields(b), v)) == Some(v) <==> Fits(SnapshotFields(b), v)
    ensures Fits(SnapshotFields(b), v) ==>
              forall k :: 0 <= k < |Encode(SnapshotFields(b), v)| ==> Decode(SnapshotFields(b), Encode(SnapshotFields(b), v)[..k]).Refusal?
  {
    hide SnapshotFields, Shaped, Fits, Written, Decode, Encode;
    SnapshotWellFormed(b);
    RoundTripExact(SnapshotFields(b), v);
    if Fits(SnapshotFields(b), v) {
      forall k | 0 <= k < |Encode(SnapshotFields(b), v)| ensures Decode(SnapshotFields(b), Encode(SnapshotFields(b), v)[..k]).Refusal? {
        PrefixRefused(SnapshotFields(b), v, k);
      }
    }
  }
}
