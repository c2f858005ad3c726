/** The facts an attempt is judged by, in the stored document with its shared dictionaries. */
module AttemptStore {
  import opened Wrappers
  import opened SpecPolicy
  import opened SpecDocument
  import opened EnvSpec
  import opened SharedSpec
  import opened MirroredSpec
  import Attempt

  /** The quality record, the artefact's task and the failure flag lie apart from every mirror. */
  lemma FactsAreApartFromMirrors(key: string, m: string)
    requires key in {Attempt.QUALITY, Attempt.ARTEFACT, Attempt.FAILED} && m in MIRROR_KEYS
    ensures !Related(m, key)
  {
    assert m[0] != key[0];
  }

  /** So over every run of agent writes, with the live dictionaries mirrored, each of them keeps its value. */
  lemma TrackedFactsOutliveRuns(h: Heap, next: nat, root: nat, steps: seq<StoreStep>, alnum: char -> bool,
                                key: string, w: Option<Value>)
    requires Kept(h, next, root) && ValidRun(h, next, root, steps, alnum)
    requires key in {Attempt.QUALITY, Attempt.ARTEFACT, Attempt.FAILED} && ReadsAs(h, root, Segments(key), w)
    ensures ReadsAs(AfterRun(h, next, root, steps, alnum).0, root, Segments(key), w)
  {
    hide Kept, ValidRun, ReadsAs, AfterRun, MIRROR_KEYS, OwnedByController, Related;
    Attempt.QualityAndFailedAreOwned();
    Attempt.ArtefactIsOwned();
    forall m | m in MIRROR_KEYS ensures !Related(m, key) {
      FactsAreApartFromMirrors(key, m);
    }
    OwnedFactsOutliveRuns(h, next, root, steps, alnum, key, w);
  }
}
