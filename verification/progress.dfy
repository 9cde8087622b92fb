/**
 * The contract-progress endpoints of the farmer backend: an in-memory map
 * from contract id to the last progress payload posted for it, written by
 * the POST handler and read by the GET handler.
 */
module Progress {
  import opened Values

  /** The two answers of the endpoints: `{"success": True, "contract_id",
      "progress"}` and `{"success": False, "message": "No progress found"}`. */
  datatype ProgressReply =
    | Progress(contractId: string, progress: Record)
    | NoProgress

  const NoProgressMessage := "No progress found"

  function Success(r: ProgressReply): bool {
    r.Progress?
  }

  /** What a GET answers for `contractId` against the stored entries: the
      payload when one is stored and it is a non-empty dict. */
  function Lookup(entries: map<string, Record>, contractId: string): (r: ProgressReply)
    ensures r.Progress? <==> contractId in entries && entries[contractId] != map[]
    ensures r.Progress? ==> r.contractId == contractId && r.progress == entries[contractId]
  {
    if contractId in entries && entries[contractId] != map[] then Progress(contractId, entries[contractId])
    else NoProgress
  }

  /** `contract_progress_store`. */
  class ContractProgressStore {
    var entries: map<string, Record>

    constructor()
      ensures entries == map[]
    {
      entries := map[];
    }

    /** `update_contract_progress`: store the payload under the id,
        replacing any earlier one, and echo both back. */
    method UpdateContractProgress(contractId: string, progressData: Record) returns (reply: ProgressReply)
      modifies this
      ensures entries == old(entries)[contractId := progressData]
      ensures reply == Progress(contractId, progressData)
    {
      entries := entries[contractId := progressData];
      reply := Progress(contractId, progressData);
    }

    /** `get_contract_progress`. */
    function GetContractProgress(contractId: string): (reply: ProgressReply)
      reads this
      ensures Success(reply) <==> contractId in entries && entries[contractId] != map[]
      ensures Success(reply) ==> reply == Progress(contractId, entries[contractId])
      ensures !Success(reply) ==> reply == NoProgress
    {
      Lookup(entries, contractId)
    }

    /** A POST followed by a GET of the same id: the GET answers what the
        POST echoed unless the payload was empty. */
    method PostThenGet(contractId: string, progressData: Record) returns (posted: ProgressReply, fetched: ProgressReply)
      modifies this
      ensures progressData != map[] ==> fetched == posted
      ensures progressData == map[] ==> fetched == NoProgress && Success(posted)
      ensures forall other :: other != contractId ==> GetContractProgress(other) == old(GetContractProgress(other))
    {
      posted := UpdateContractProgress(contractId, progressData);
      fetched := GetContractProgress(contractId);
    }
  }

  /** A POST replaces the earlier payload: the last one posted is the one read. */
  lemma LastPostWins(entries: map<string, Record>, contractId: string, first: Record, second: Record)
    requires second != map[]
    ensures Lookup(entries[contractId := first][contractId := second], contractId) == Progress(contractId, second)
  {
  }

  /** A POST for one contract does not change what a GET of another answers. */
  lemma PostKeepsOtherContracts(entries: map<string, Record>, contractId: string, data: Record, other: string)
    requires other != contractId
    ensures Lookup(entries[contractId := data], other) == Lookup(entries, other)
  {
  }

  /** A GET for an id never posted answers "no progress". */
  lemma UnknownContractHasNoProgress(entries: map<string, Record>, contractId: string)
    requires contractId !in entries
    ensures !Success(Lookup(entries, contractId))
  {
  }
}
