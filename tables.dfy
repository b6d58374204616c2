/** The stores the repository talks to, held in memory: the Postgres tables
    `chat_messages` and `files`, and the Pinecone index `chatwithpdf`. */
module Tables {
  import opened Types

  /** A row of `chat_messages`. `createdAt` is the value of the column's default,
      which the database fills in at insertion time. */
  datatype ChatRow = ChatRow(fileId: string, userId: string, role: string, message: string, createdAt: nat)

  /** A row of `files`, as much of it as the core reads; `url` may be NULL. */
  datatype FileRow = FileRow(fileId: string, userId: string, url: Option<string>)

  /** A piece of a split PDF. The splitter is a library, so its text is opaque here. */
  datatype Chunk = Chunk(pageContent: string)

  /** Rows in strictly ascending `created_at` order. */
  ghost predicate StrictlyIncreasing(rows: seq<ChatRow>) {
    forall i, j :: 0 <= i < j < |rows| ==> rows[i].createdAt < rows[j].createdAt
  }

  /** The `chat_messages` table. Rows are only ever inserted; `clock` stands for the
      database clock behind the `created_at` default and moves forward on every insert. */
  class ChatMessagesTable {
    var rows: seq<ChatRow>
    var clock: nat

    /** Insertion order is timestamp order, and no row is stamped in the future. */
    ghost predicate Valid()
      reads this
    {
      StrictlyIncreasing(rows) &&
      forall i :: 0 <= i < |rows| ==> rows[i].createdAt < clock
    }

    constructor ()
      ensures Valid() && rows == [] && clock == 0
    {
      rows := [];
      clock := 0;
    }

    /** An insert of one message; the database stamps it with the current time. */
    method Insert(fileId: string, userId: string, role: string, message: string)
      requires Valid()
      modifies this
      ensures Valid()
      ensures rows == old(rows) + [ChatRow(fileId, userId, role, message, old(clock))]
      ensures clock == old(clock) + 1
    {
      rows := rows + [ChatRow(fileId, userId, role, message, clock)];
      clock := clock + 1;
    }
  }

  /** The Pinecone index: one namespace of embedded chunks per document id. */
  class PineconeIndex {
    var namespaces: map<string, seq<Chunk>>

    constructor ()
      ensures namespaces == map[]
    {
      namespaces := map[];
    }

    /** `describeIndexStats()`: the record count of every namespace the index holds. */
    function DescribeIndexStats(): (stats: map<string, nat>)
      reads this
      ensures stats.Keys == namespaces.Keys
      ensures forall ns :: ns in stats ==> stats[ns] == |namespaces[ns]|
    {
      map ns | ns in namespaces :: |namespaces[ns]|
    }

    /** The write that `PineconeStore.fromDocuments` makes into a namespace that does not
        exist yet: embed the chunks (a foreign call that may throw) and upsert them. A throw
        writes nothing, and so does an empty chunk list: no record is sent, and a Pinecone
        namespace exists only while it holds records. */
    method Upsert(namespace: string, docs: seq<Chunk>, embed: seq<Chunk> -> Outcome<()>)
      returns (o: Outcome<()>)
      requires namespace !in namespaces
      modifies this
      ensures o == embed(docs)
      ensures namespaces == if o.Returned? && docs != [] then old(namespaces)[namespace := docs] else old(namespaces)
    {
      o := embed(docs);
      if o.Returned? && docs != [] {
        namespaces := namespaces[namespace := docs];
      }
    }
  }
}
