/** The vector database as the ingestion script sees it through
    `QdrantClient.collection_exists`, `QdrantClient.create_collection` and
    `QdrantVectorStore.add_documents`: a set of named collections with their
    vector parameters, the creations made, and the batches upserted, in order.
    Embedding the chunks happens inside the store and is not modelled. */
module VectorIndex {
  import opened Documents

  datatype Distance = Cosine

  datatype VectorParams = VectorParams(size: nat, distance: Distance)

  /** One `add_documents` call: the collection written and the chunks sent. */
  datatype Upsert = Upsert(collection: string, batch: seq<Document>)

  class Index {
    var collections: map<string, VectorParams>
    var created: seq<string>
    var upserts: seq<Upsert>

    constructor (existing: map<string, VectorParams>)
      ensures collections == existing && created == [] && upserts == []
    {
      collections := existing;
      created := [];
      upserts := [];
    }

    /** `collection_exists`. */
    predicate CollectionExists(name: string)
      reads this
    {
      name in collections
    }

    /** `create_collection`; the server refuses a name already taken. */
    method CreateCollection(name: string, params: VectorParams)
      requires name !in collections
      modifies this
      ensures collections == old(collections)[name := params]
      ensures created == old(created) + [name]
      ensures upserts == old(upserts)
    {
      collections := collections[name := params];
      created := created + [name];
    }

    /** `add_documents` on a store bound to collection `name`, which must exist. */
    method AddDocuments(name: string, batch: seq<Document>)
      requires name in collections
      modifies this
      ensures upserts == old(upserts) + [Upsert(name, batch)]
      ensures collections == old(collections) && created == old(created)
    {
      upserts := upserts + [Upsert(name, batch)];
    }
  }
}
