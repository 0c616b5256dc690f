/**
 * The node annotations the daemon uses for bookkeeping (cmd/kustodian/main.go:66-69)
 * and the in-memory merge `addNodeAnnotations` performs on a freshly fetched node
 * (cmd/kustodian/main.go:242-250) before sending it back as a patch.
 */
module Annotations {
  import JsonPointer

  /** Namespace shared by the daemon's annotation keys. */
  const KeyPrefix: string := "k8s.io"

  /** Set while the node is between "maintenance needed" and the end of maintenance. */
  const InProgressKey: string := KeyPrefix + "/" + "maintenance-in-progress"

  /** When this node was last found to need maintenance. */
  const MostRecentNeededKey: string := KeyPrefix + "/" + "most-recent-maintenance-needed"

  /** The two stamps written in one patch when maintenance is first seen to be needed. */
  function NeededStamps(now: string): map<string, string>
  {
    map[InProgressKey := now, MostRecentNeededKey := now]
  }

  /**
   * The loop of `addNodeAnnotations` that copies each addition into the fetched annotations: the result
   * has every added key with its added value and every other fetched key unchanged.
   * Go visits the map in an unspecified order; the loop here picks any remaining key.
   */
  method MergeAnnotations(fetched: map<string, string>, additions: map<string, string>)
    returns (merged: map<string, string>)
    ensures merged.Keys == fetched.Keys + additions.Keys
    ensures forall k :: k in additions ==> merged[k] == additions[k]
    ensures forall k :: k in fetched && k !in additions ==> merged[k] == fetched[k]
  {
    merged := fetched;
    var pending := additions.Keys;
    while pending != {}
      invariant pending <= additions.Keys
      invariant merged.Keys == fetched.Keys + (additions.Keys - pending)
      invariant forall k :: k in additions && k !in pending ==> merged[k] == additions[k]
      invariant forall k :: k in fetched && k !in additions ==> merged[k] == fetched[k]
      decreases pending
    {
      var k :| k in pending;
      merged := merged[k := additions[k]];
      pending := pending - {k};
    }
  }

  /** The keys the merge works with are distinct, so one patch carries both stamps. */
  lemma KeysDistinct()
    ensures InProgressKey != MostRecentNeededKey
  {
    assert InProgressKey[7] == 'm' && InProgressKey[8] == 'a';
    assert MostRecentNeededKey[7] == 'm' && MostRecentNeededKey[8] == 'o';
  }

  /**
   * `deleteNodeAnnotation(..., KustodianMaintenanceInProgressAnnotation)` addresses
   * `/metadata/annotations/k8s.io~1maintenance-in-progress`: the namespace separator is
   * escaped and nothing else.
   */
  lemma InProgressDeletePath()
    ensures JsonPointer.DeletePath(InProgressKey)
         == JsonPointer.AnnotationsPointer + KeyPrefix + "~1" + "maintenance-in-progress"
  {
    var name := "maintenance-in-progress";
    assert '/' !in KeyPrefix by {
      assert forall i :: 0 <= i < |KeyPrefix| ==> KeyPrefix[i] != '/';
    }
    assert '/' !in name by {
      assert forall i :: 0 <= i < |name| ==> name[i] != '/';
    }
    JsonPointer.NamespacedDeletePath(KeyPrefix, name);
  }
}
