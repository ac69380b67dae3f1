/**
 * Sender classification and display names, used by `index.js` only to
 * log who wrote a message. Name lookups never fail the handler; the group
 * metadata call, made outside the `try`, can.
 */
module Sender {
  import opened Wrappers
  import opened JsString
  import opened Events

  /** Group conversation ids end in this suffix. */
  const GroupSuffix: string := "@g.us"

  predicate IsGroup(jid: string) {
    EndsWith(jid, GroupSuffix)
  }

  /** An id is a group id exactly when it is some string followed by the suffix. */
  lemma GroupIdShape(jid: string, user: string)
    ensures IsGroup(user + GroupSuffix)
    ensures IsGroup(jid) <==> |jid| >= |GroupSuffix| && jid == jid[..|jid| - |GroupSuffix|] + GroupSuffix
  {
    var g := user + GroupSuffix;
    assert g[|g| - |GroupSuffix|..] == GroupSuffix;
    if |jid| >= |GroupSuffix| {
      var cut := |jid| - |GroupSuffix|;
      assert (jid[..cut] + GroupSuffix)[cut..] == GroupSuffix;
      if IsGroup(jid) {
        assert jid == jid[..cut] + jid[cut..];
      }
    }
  }

  /** `getDisplayName`: the looked-up name when it is truthy, the raw id when
      the name is empty or missing or the lookup throws. */
  function GetDisplayName(jid: string, lookup: Promise<Option<string>>): (name: string)
    ensures name == jid || (lookup == Fulfilled(Some(name)) && name != [])
    ensures lookup.Fulfilled? && Truthy(lookup.value) ==> name == lookup.value.value
    ensures lookup.Rejected? ==> name == jid
    ensures lookup.Fulfilled? && !Truthy(lookup.value) ==> name == jid
  {
    match lookup
    case Rejected => jid
    case Fulfilled(found) => if Truthy(found) then found.value else jid
  }

  /** Who is logged as the sender. */
  datatype SenderInfo = InGroup(subject: string, participantName: string) | Direct(name: string)

  /** The logging block before the `try`: groups fetch their metadata (which
      may throw, aborting the handler) and the participant's name; direct
      chats fetch the counterpart's name. */
  function ResolveSender(jid: string, participant: string, io: Io): (r: Result<SenderInfo, Cause>)
    ensures r.Failure? <==> IsGroup(jid) && io.groupMetadata(jid).Rejected?
    ensures r.Failure? ==> r.error == GroupMetadataFailed
    ensures r.Success? ==> (r.value.InGroup? <==> IsGroup(jid))
    ensures r.Success? && IsGroup(jid) ==>
      r.value == InGroup(io.groupMetadata(jid).value, GetDisplayName(participant, io.fetchName(participant)))
    ensures !IsGroup(jid) ==> r == Success(Direct(GetDisplayName(jid, io.fetchName(jid))))
  {
    if IsGroup(jid) then
      match io.groupMetadata(jid)
      case Rejected => Failure(GroupMetadataFailed)
      case Fulfilled(subject) => Success(InGroup(subject, GetDisplayName(participant, io.fetchName(participant))))
    else
      Success(Direct(GetDisplayName(jid, io.fetchName(jid))))
  }
}
