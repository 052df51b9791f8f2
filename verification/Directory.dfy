/** server/src/directory.rs: the two tables behind the relay. */
module Directory {
  import opened Wrappers
  import Wire
  import opened Relay
  import opened RelayInvariant

  /**
   * Every method is one SQL statement. `fails` is the outcome the database chooses: a statement
   * that fails changes nothing.
   */
  class Database {
    var publicKeys: map<string, Wire.Entry>
    var queuedMessages: seq<Row>  // in id order
    var lastRowId: nat            // AUTOINCREMENT: the largest id ever given out
    var inserted: seq<Row>        // history

    constructor ()
      ensures publicKeys == map[] && queuedMessages == [] && lastRowId == 0 && inserted == []
    {
      publicKeys := map[];
      queuedMessages := [];
      lastRowId := 0;
      inserted := [];
    }

    /** INSERT ... ON CONFLICT(username) DO UPDATE. */
    method RegisterPublicKey(registration: Wire.Entry, fails: bool) returns (entry: Option<Wire.Entry>)
      modifies this`publicKeys
      ensures fails ==> entry.None? && publicKeys == old(publicKeys)
      ensures !fails ==> entry == Some(registration) && publicKeys == old(publicKeys)[registration.username := registration]
    {
      if fails {
        return None;
      }
      publicKeys := publicKeys[registration.username := registration];
      entry := Some(registration);
    }

    method LookupPublicKey(username: string) returns (entry: Option<Wire.Entry>)
      ensures entry == if username in publicKeys then Some(publicKeys[username]) else None
    {
      entry := if username in publicKeys then Some(publicKeys[username]) else None;
    }

    /** INSERT INTO queued_messages; it also fails when the ids are used up. */
    method QueueMessage(recipient: string, message: Message, fails: bool) returns (ok: bool)
      modifies this`queuedMessages, this`lastRowId, this`inserted
      ensures ok <==> !fails && old(lastRowId) < 9223372036854775807
      ensures ok ==> lastRowId == old(lastRowId) + 1
                     && queuedMessages == old(queuedMessages) + [Row(lastRowId, recipient, message)]
                     && inserted == old(inserted) + [Row(lastRowId, recipient, message)]
      ensures !ok ==> lastRowId == old(lastRowId) && queuedMessages == old(queuedMessages) && inserted == old(inserted)
    {
      ok := !fails && lastRowId < MAX_ROW_ID;
      if ok {
        lastRowId := lastRowId + 1;
        queuedMessages := queuedMessages + [Row(lastRowId, recipient, message)];
        inserted := inserted + [Row(lastRowId, recipient, message)];
      }
    }

    /** SELECT id, payload ... WHERE recipient = ? ORDER BY id. */
    method QueuedMessagesFor(recipient: string) returns (rows: seq<Row>)
      ensures rows == RowsFor(queuedMessages, recipient)
    {
      rows := [];
      var i := |queuedMessages|;
      while i > 0
        invariant 0 <= i <= |queuedMessages|
        invariant rows == RowsFor(queuedMessages[i..], recipient)
      {
        i := i - 1;
        assert queuedMessages[i..][1..] == queuedMessages[i + 1..];
        if queuedMessages[i].recipient == recipient {
          rows := [queuedMessages[i]] + rows;
        }
      }
      assert queuedMessages[0..] == queuedMessages;
    }

    /** DELETE FROM queued_messages WHERE id = ? */
    method DeleteQueuedMessage(id: nat, fails: bool) returns (ok: bool)
      modifies this`queuedMessages
      ensures ok <==> !fails
      ensures queuedMessages == if ok then WithoutRow(old(queuedMessages), id) else old(queuedMessages)
    {
      ok := !fails;
      if ok {
        var kept: seq<Row> := [];
        var i := |queuedMessages|;
        while i > 0
          invariant 0 <= i <= |queuedMessages| && queuedMessages == old(queuedMessages)
          invariant kept == WithoutRow(queuedMessages[i..], id)
        {
          i := i - 1;
          assert queuedMessages[i..][1..] == queuedMessages[i + 1..];
          if queuedMessages[i].id != id {
            kept := [queuedMessages[i]] + kept;
          }
        }
        assert queuedMessages[0..] == queuedMessages;
        queuedMessages := kept;
      }
    }
  }

  /** On a table in id order, the SELECT and the DELETE do what their clauses say. */
  lemma SelectAndDelete(rows: seq<Row>, recipient: string, id: nat, r: Row)
    requires SortedRows(rows)
    ensures SortedRows(RowsFor(rows, recipient)) && (r in RowsFor(rows, recipient) <==> r in rows && r.recipient == recipient)
    ensures SortedRows(WithoutRow(rows, id)) && (r in WithoutRow(rows, id) <==> r in rows && r.id != id)
  {
    RowsForSorted(rows, recipient);
    RowsForMember(rows, recipient, r);
    WithoutRowSorted(rows, id);
    WithoutRowMember(rows, id, r);
  }
}
