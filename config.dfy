/** Settings read by the query chain (config/config.py) and by the ingestion
    script (src/scripts/ingest_config.py), with their declared defaults. */
module Config {
  import opened Wrappers

  const DefaultRetrieverK: nat := 4
  const DefaultScoreThreshold: real := 0.3
  const DefaultDataPath: string := "./data"
  const DefaultChunkSize: nat := 1000
  const DefaultChunkOverlap: nat := 100
  const DefaultVectorSize: nat := 384

  /** The fields of `Settings` the query chain reads. The threshold is optional
      because the chain compares it with `None` before using it. */
  datatype Settings = Settings(retrieverK: nat, retrievalScoreThreshold: Option<real>)

  function DefaultSettings(): (s: Settings)
    ensures s.retrieverK == 4 && s.retrievalScoreThreshold == Some(0.3)
  {
    Settings(DefaultRetrieverK, Some(DefaultScoreThreshold))
  }

  /** The fields of `IngestSettings` the ingestion script reads. */
  datatype IngestSettings = IngestSettings(
    collectionName: string,
    dataPath: string,
    chunkSize: nat,
    chunkOverlap: nat,
    vectorSize: nat)

  /** `collection_name` has no default; every other field takes its declared one. */
  function DefaultIngestSettings(collectionName: string): (s: IngestSettings)
    ensures s.collectionName == collectionName && s.dataPath == "./data"
    ensures s.chunkSize == 1000 && s.chunkOverlap == 100 && s.vectorSize == 384
  {
    IngestSettings(collectionName, DefaultDataPath, DefaultChunkSize, DefaultChunkOverlap, DefaultVectorSize)
  }
}
