/**
 * The combo ledger with Firebase disabled (comboExistsInFirestore and addComboToFirestore in
 * backend/app.js): the process-wide set localComboStorage of fingerprints.
 */
module Ledger {
  import opened Fingerprint

  class LocalLedger {
    /** localComboStorage: every fingerprint recorded since the process started. */
    var stored: set<Digest>

    /** A fresh process starts with an empty ledger. */
    constructor()
      ensures stored == {}
    {
      stored := {};
    }

    /** comboExistsInFirestore, local branch: whether the fingerprint was recorded before. */
    method Exists(comboHash: Digest) returns (found: bool)
      ensures found <==> comboHash in stored
    {
      found := comboHash in stored;
    }

    /**
     * addComboToFirestore, local branch: records the fingerprint. The day and the user id
     * are kept only by the Firestore document, so the local set ignores them.
     */
    method Record(comboHash: Digest, day: string, userId: string)
      modifies this
      ensures stored == old(stored) + {comboHash}
    {
      stored := stored + {comboHash};
    }
  }
}
