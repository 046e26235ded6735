/** What ends a task: errors that handlers return with `?`, and failed `unwrap`/`expect` calls. */
module Failures {
  datatype Failure =
    | BadPdu            // a stored PDU that does not parse
    | NoSuchRow         // delete_message: no rows affected
    | NoSuchRecipient   // delete_recipient_with_addr: no rows affected
    | NoSuchGroup       // get_group_by_id finds nothing
    | RecipientMissing  // get_groups_for_recipient finds no recipient
    | UuidsExhausted    // get_uuid
    | UnknownUid        // contact_message called with unknown uid
    | ForeignUid        // contact_message called for a uid that is not ours
    | NotLoggedOn       // on_message: our_jid empty
    | MetadataRejected  // on_got_group_metadata: a participant without an address, or no row to update
    | GroupGone         // store_wa_message: the foreign key of a row whose group was deleted
    | BadAddress        // a stored phone number that does not read back
    | RemoteError       // an ERROR line of the peer
    | BadServer         // a SERVER line of the peer that is rejected
    | BadUidLine        // a UID line of the peer that does not parse
    | Unwrap            // unwrap or expect on a missing value
}
