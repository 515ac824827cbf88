/**
 * The backend's decision logic: the startup backfill of missing catalogue
 * embeddings, the best-match scan over the catalogue, and the order of the
 * checks made by the `/api/generate-model` handler.
 *
 * The sentence encoder is a function from text to a vector and the cosine
 * similarity an uninterpreted score; the database collection is an array
 * of entries.
 */
module Backend {
  import opened Wrappers

  type Vector = seq<real>

  /** The encoder's `embed` for one sentence. */
  type Encoder = string -> Vector

  /** `cosineSimilarity(promptEmbedding, entryEmbedding)`, left abstract. */
  type Similarity = (Vector, Vector) -> real

  /** A stored 3D model; absent fields are None. */
  datatype Entry = Entry(
    id: nat,
    name: Option<string>,
    description: Option<string>,
    tags: seq<string>,
    filePath: Option<string>,
    embedding: Option<Vector>)

  /** The part of an entry the handler sends back. */
  datatype ModelView = ModelView(id: nat, name: Option<string>, filePath: Option<string>, description: Option<string>)

  datatype Response =
    | Found(model: ModelView)
    | Failure(status: nat, error: string)

  /** JavaScript truthiness of an optional string: present and not empty. */
  predicate Truthy(s: Option<string>)
  {
    s.Some? && s.value != ""
  }

  /** The entry has an embedding that is present and not empty. */
  predicate HasEmbedding(e: Entry)
  {
    e.embedding.Some? && |e.embedding.value| > 0
  }

  function View(e: Entry): ModelView
  {
    ModelView(e.id, e.name, e.filePath, e.description)
  }

  // ---------------------------------------------------------------------------
  // Startup backfill of missing embeddings

  /** The text embedded for an entry: `description || name || ''`. */
  function EmbeddingText(e: Entry): (r: string)
    ensures r == "" <==> !Truthy(e.description) && !Truthy(e.name)
    ensures r != "" ==> Some(r) == e.description || Some(r) == e.name
  {
    if Truthy(e.description) then e.description.value
    else if Truthy(e.name) then e.name.value
    else ""
  }

  /** One step of the backfill loop: embed the entry only if its embedding is missing. */
  function BackfillEntry(e: Entry, embed: Encoder): (r: Entry)
    ensures r.(embedding := e.embedding) == e
    ensures HasEmbedding(e) ==> r == e
  {
    if HasEmbedding(e) then e else e.(embedding := Some(embed(EmbeddingText(e))))
  }

  /** The catalogue after the backfill, entry by entry in catalogue order. */
  function Backfilled(entries: seq<Entry>, embed: Encoder): (r: seq<Entry>)
    ensures |r| == |entries|
  {
    if entries == [] then [] else [BackfillEntry(entries[0], embed)] + Backfilled(entries[1..], embed)
  }

  lemma {:induction false} BackfilledAt(entries: seq<Entry>, embed: Encoder, i: nat)
    requires i < |entries|
    ensures |Backfilled(entries, embed)| == |entries|
    ensures Backfilled(entries, embed)[i] == BackfillEntry(entries[i], embed)
  {
    if i > 0 {
      BackfilledAt(entries[1..], embed, i - 1);
    } else if |entries| > 1 {
      BackfilledAt(entries[1..], embed, 0);
    }
  }

  /**
   * The backfill changes exactly the entries whose embedding is missing:
   * an embedded entry is left as it was, a missing one gets the embedding of
   * its text, and no other field of any entry changes.
   */
  lemma BackfillTouchesOnlyMissing(entries: seq<Entry>, embed: Encoder, i: nat)
    requires i < |entries|
    ensures |Backfilled(entries, embed)| == |entries|
    ensures HasEmbedding(entries[i]) ==> Backfilled(entries, embed)[i] == entries[i]
    ensures !HasEmbedding(entries[i]) ==>
      Backfilled(entries, embed)[i].embedding == Some(embed(EmbeddingText(entries[i])))
    ensures Backfilled(entries, embed)[i].(embedding := entries[i].embedding) == entries[i]
  {
    BackfilledAt(entries, embed, i);
  }

  /** With an encoder that never returns an empty vector, every entry is embedded afterwards. */
  lemma BackfillCompletes(entries: seq<Entry>, embed: Encoder)
    requires forall t: string :: |embed(t)| > 0
    ensures |Backfilled(entries, embed)| == |entries|
    ensures forall i | 0 <= i < |entries| :: HasEmbedding(Backfilled(entries, embed)[i])
  {
    forall i | 0 <= i < |entries| ensures HasEmbedding(Backfilled(entries, embed)[i]) {
      BackfilledAt(entries, embed, i);
    }
  }

  /** Running the backfill again, as on a later restart, changes nothing. */
  lemma BackfillIdempotent(entries: seq<Entry>, embed: Encoder)
    ensures Backfilled(Backfilled(entries, embed), embed) == Backfilled(entries, embed)
  {
    var once := Backfilled(entries, embed);
    forall i | 0 <= i < |once| ensures Backfilled(once, embed)[i] == once[i] {
      BackfilledAt(entries, embed, i);
      BackfilledAt(once, embed, i);
    }
  }

  /**
   * The text falls through on falsy fields: an empty description gives way
   * to the name, and an entry with neither gives the empty string.
   */
  lemma EmbeddingTextFallsThrough(e: Entry)
    ensures Truthy(e.description) ==> EmbeddingText(e) == e.description.value
    ensures !Truthy(e.description) && Truthy(e.name) ==> EmbeddingText(e) == e.name.value
    ensures !Truthy(e.description) && !Truthy(e.name) ==> EmbeddingText(e) == ""
    ensures e.description == Some("") && e.name == Some("chair") ==> EmbeddingText(e) == "chair"
  {
  }

  /** `precomputeModelEmbeddings`: embeds and saves, in place, each entry whose embedding is missing. */
  method Backfill(store: array<Entry>, embed: Encoder)
    modifies store
    ensures store[..] == Backfilled(old(store[..]), embed)
  {
    for i := 0 to store.Length
      invariant forall j | 0 <= j < i :: store[j] == BackfillEntry(old(store[j]), embed)
      invariant forall j | i <= j < store.Length :: store[j] == old(store[j])
    {
      if !HasEmbedding(store[i]) {
        var text := EmbeddingText(store[i]);
        store[i] := store[i].(embedding := Some(embed(text)));
      }
    }
    ghost var before := old(store[..]);
    forall i | 0 <= i < store.Length ensures store[..][i] == Backfilled(before, embed)[i] {
      BackfilledAt(before, embed, i);
    }
  }

  // ---------------------------------------------------------------------------
  // Best match

  /** The similarity of an embedded entry to the query. */
  function ScoreOf(query: Vector, e: Entry, similarity: Similarity): real
    requires HasEmbedding(e)
  {
    similarity(query, e.embedding.value)
  }

  /**
   * Entry `k` is the one the scan selects: it is embedded, scores above -1,
   * scores at least as high as every embedded entry, and strictly higher
   * than every embedded entry before it.
   */
  ghost predicate IsBest(query: Vector, models: seq<Entry>, similarity: Similarity, k: nat)
  {
    k < |models| && HasEmbedding(models[k]) &&
    ScoreOf(query, models[k], similarity) > -1.0 &&
    (forall j | 0 <= j < |models| && HasEmbedding(models[j]) ::
      ScoreOf(query, models[j], similarity) <= ScoreOf(query, models[k], similarity)) &&
    (forall j | 0 <= j < k && HasEmbedding(models[j]) ::
      ScoreOf(query, models[j], similarity) < ScoreOf(query, models[k], similarity))
  }

  /** No embedded entry beats the starting score of -1. */
  ghost predicate NoMatch(query: Vector, models: seq<Entry>, similarity: Similarity)
  {
    forall j | 0 <= j < |models| && HasEmbedding(models[j]) :: ScoreOf(query, models[j], similarity) <= -1.0
  }

  /**
   * The running-maximum scan of the handler: entries without an embedding
   * are skipped, the score starts at -1 and only a strictly greater score
   * replaces the current best.
   */
  method FindBest(query: Vector, models: seq<Entry>, similarity: Similarity) returns (best: Option<nat>)
    ensures best.Some? ==> IsBest(query, models, similarity, best.value)
    ensures best.None? ==> NoMatch(query, models, similarity)
  {
    best := None;
    var bestScore := -1.0;
    for i := 0 to |models|
      invariant best.None? ==> bestScore == -1.0
      invariant best.Some? ==> best.value < i && HasEmbedding(models[best.value])
      invariant best.Some? ==> bestScore == ScoreOf(query, models[best.value], similarity) > -1.0
      invariant forall j | 0 <= j < i && HasEmbedding(models[j]) :: ScoreOf(query, models[j], similarity) <= bestScore
      invariant best.Some? ==>
        forall j | 0 <= j < best.value && HasEmbedding(models[j]) :: ScoreOf(query, models[j], similarity) < bestScore
    {
      if !HasEmbedding(models[i]) {
        continue;
      }
      var score := similarity(query, models[i].embedding.value);
      if score > bestScore {
        bestScore := score;
        best := Some(i);
      }
    }
  }

  /** At most one entry is the best: on equal scores the earliest wins. */
  lemma BestIsUnique(query: Vector, models: seq<Entry>, similarity: Similarity, k1: nat, k2: nat)
    requires IsBest(query, models, similarity, k1) && IsBest(query, models, similarity, k2)
    ensures k1 == k2
  {
  }

  /** An embedded entry scoring the same as the best one never comes before it. */
  lemma TieGoesToEarliest(query: Vector, models: seq<Entry>, similarity: Similarity, k: nat, j: nat)
    requires IsBest(query, models, similarity, k)
    requires j < |models| && HasEmbedding(models[j])
    requires ScoreOf(query, models[j], similarity) == ScoreOf(query, models[k], similarity)
    ensures k <= j
  {
  }

  /** Either some entry is the best or none beats -1, never both. */
  lemma {:induction false} BestOrNoMatch(query: Vector, models: seq<Entry>, similarity: Similarity)
    ensures NoMatch(query, models, similarity) <==> !exists k: nat :: IsBest(query, models, similarity, k)
  {
    if models != [] {
      var init := models[..|models| - 1];
      var last := models[|models| - 1];
      BestOrNoMatch(query, init, similarity);
      assert forall j | 0 <= j < |init| :: init[j] == models[j];
      if k: nat :| IsBest(query, init, similarity, k) {
        if HasEmbedding(last) && ScoreOf(query, last, similarity) > ScoreOf(query, models[k], similarity) {
          assert IsBest(query, models, similarity, |models| - 1);
        } else {
          assert IsBest(query, models, similarity, k);
        }
      } else if HasEmbedding(last) && ScoreOf(query, last, similarity) > -1.0 {
        assert IsBest(query, models, similarity, |models| - 1);
      } else {
        assert NoMatch(query, models, similarity);
      }
    }
  }

  // ---------------------------------------------------------------------------
  // The server

  /** The process-wide state: the loaded encoder (`modelUSE`) and the catalogue collection. */
  class Server {
    var encoder: Option<Encoder>
    const store: array<Entry>

    constructor (store: array<Entry>)
      ensures encoder == None && this.store == store
    {
      encoder := None;
      this.store := store;
    }

    /** `loadUSEModel`: the encoder becomes available, then the missing embeddings are filled in. */
    method LoadEncoder(embed: Encoder)
      modifies this, store
      ensures encoder == Some(embed)
      ensures store[..] == Backfilled(old(store[..]), embed)
    {
      encoder := Some(embed);
      Backfill(store, embed);
    }

    /**
     * `POST /api/generate-model`: 400 without a prompt, 503 before the
     * encoder is loaded, 404 for an empty catalogue, 404 when no embedded
     * entry beats -1, else the best entry.
     */
    method GenerateModel(prompt: Option<string>, similarity: Similarity) returns (response: Response)
      ensures !Truthy(prompt) ==> response == Failure(400, "Prompt is required")
      ensures Truthy(prompt) && encoder.None? ==> response == Failure(503, "Model not loaded yet")
      ensures Truthy(prompt) && encoder.Some? && store.Length == 0 ==>
        response == Failure(404, "No models found in database")
      ensures Truthy(prompt) && encoder.Some? && store.Length > 0 ==>
        (response == Failure(404, "No matching model found") <==>
         NoMatch(encoder.value(prompt.value), store[..], similarity))
      ensures response.Found? <==>
        Truthy(prompt) && encoder.Some? && store.Length > 0 &&
        !NoMatch(encoder.value(prompt.value), store[..], similarity)
      ensures response.Found? ==>
        Truthy(prompt) && encoder.Some? &&
        exists k: nat :: IsBest(encoder.value(prompt.value), store[..], similarity, k) &&
                         response.model == View(store[k])
    {
      if !Truthy(prompt) {
        return Failure(400, "Prompt is required");
      }
      if encoder.None? {
        return Failure(503, "Model not loaded yet");
      }
      var query := encoder.value(prompt.value);
      var models := store[..];
      if |models| == 0 {
        return Failure(404, "No models found in database");
      }
      var best := FindBest(query, models, similarity);
      if best.None? {
        return Failure(404, "No matching model found");
      }
      BestOrNoMatch(query, models, similarity);
      response := Found(View(models[best.value]));
    }
  }
}
