/**
 * Reading Gmail messages: plain-text body extraction from a MIME payload,
 * folder (label) resolution with capped pagination, and the summary record
 * of one message.
 *
 * Base64url decoding of a body (section 5 of RFC 4648) followed by UTF-8
 * decoding is the function parameter `decode`.
 */
module GmailFetch {
  import opened Wrappers
  import opened Text
  import GmailSearch

  datatype Header = Header(name: string, value: string)

  /** A part's `body` object; its `data` key is optional. */
  datatype Body = Body(data: Option<string>)

  /** A MIME part as the Gmail API returns it; a message payload is a part too. Absent keys are `None`. */
  datatype Part = Part(mimeType: Option<string>, filename: Option<string>, headers: Option<seq<Header>>,
                       body: Option<Body>, parts: Option<seq<Part>>)

  const NoTextBody := "<Text body not available>"

  /** `part.get('body', {})` holds `data`: its value. */
  function DataOf(p: Part): Option<string> {
    if p.body.Some? then p.body.value.data else None
  }

  predicate IsPlainWithData(p: Part) {
    p.mimeType == Some("text/plain") && DataOf(p).Some?
  }

  predicate IsAlternative(p: Part) {
    p.mimeType == Some("multipart/alternative")
  }

  /** `part.get('parts', [])` */
  function SubpartsOf(p: Part): seq<Part> {
    p.parts.GetOr([])
  }

  /** The data of the first text/plain part that carries data. */
  function FirstPlainData(ps: seq<Part>): (r: Option<string>)
    ensures r.None? <==> forall i :: 0 <= i < |ps| ==> !IsPlainWithData(ps[i])
    ensures r.Some? ==> exists i :: 0 <= i < |ps| && IsPlainWithData(ps[i]) && DataOf(ps[i]) == r
                                    && forall j :: 0 <= j < i ==> !IsPlainWithData(ps[j])
  {
    if ps == [] then None
    else if IsPlainWithData(ps[0]) then DataOf(ps[0])
    else
      var r := FirstPlainData(ps[1..]);
      assert forall i :: 1 <= i < |ps| ==> ps[i] == ps[1..][i - 1];
      r
  }

  /**
   * The scan of the top-level parts from index i with the body found so far:
   * an alternative part overwrites the body with its first plain subpart and
   * the scan goes on; a plain part with data decides the body and ends it.
   */
  function Scan(parts: seq<Part>, i: nat, body: string, decode: string -> string): string
    decreases |parts| - i
  {
    if i >= |parts| then body
    else if IsAlternative(parts[i]) then
      match FirstPlainData(SubpartsOf(parts[i]))
      case Some(d) => Scan(parts, i + 1, decode(d), decode)
      case None => Scan(parts, i + 1, body, decode)
    else if IsPlainWithData(parts[i]) then decode(DataOf(parts[i]).value)
    else Scan(parts, i + 1, body, decode)
  }

  /** What `_extract_body` returns. */
  function BodyOf(payload: Part, decode: string -> string): string {
    if payload.parts.Some? then Scan(payload.parts.value, 0, NoTextBody, decode)
    else if DataOf(payload).Some? then decode(DataOf(payload).value)
    else NoTextBody
  }

  /** `_extract_body`: the nested loops, with the inner `break` leaving only the inner loop. */
  method ExtractBody(payload: Part, decode: string -> string) returns (body: string)
    ensures body == BodyOf(payload, decode)
  {
    body := NoTextBody;
    if payload.parts.Some? {
      var parts := payload.parts.value;
      var i := 0;
      while i < |parts|
        invariant 0 <= i <= |parts|
        invariant Scan(parts, i, body, decode) == BodyOf(payload, decode)
      {
        var part := parts[i];
        if IsAlternative(part) {
          var subparts := SubpartsOf(part);
          ghost var before := body;
          var j := 0;
          while j < |subparts|
            invariant 0 <= j <= |subparts|
            invariant body == before
            invariant FirstPlainData(subparts) == FirstPlainData(subparts[j..])
          {
            assert subparts[j..][1..] == subparts[j + 1..];
            if IsPlainWithData(subparts[j]) {
              body := decode(DataOf(subparts[j]).value);
              break;
            }
            j := j + 1;
          }
          assert body == match FirstPlainData(subparts) case Some(d) => decode(d) case None => before;
        } else if IsPlainWithData(part) {
          body := decode(DataOf(part).value);
          break;
        }
        i := i + 1;
      }
    } else if DataOf(payload).Some? {
      body := decode(DataOf(payload).value);
    }
  }

  lemma {:induction false} ScanWithoutText(parts: seq<Part>, i: nat, body: string, decode: string -> string)
    requires forall k :: 0 <= k < |parts| ==> !IsPlainWithData(parts[k])
    requires forall k :: 0 <= k < |parts| && IsAlternative(parts[k]) ==> FirstPlainData(SubpartsOf(parts[k])).None?
    ensures Scan(parts, i, body, decode) == body
    decreases |parts| - i
  {
    if i < |parts| {
      ScanWithoutText(parts, i + 1, body, decode);
    }
  }

  /**
   * With `parts` present and no text/plain part with data, at the top level
   * or inside an alternative part, the placeholder is returned, even when
   * the payload has body data of its own.
   */
  lemma PlaceholderWithoutPlainText(payload: Part, decode: string -> string)
    requires payload.parts.Some?
    requires forall p :: p in payload.parts.value ==> !IsPlainWithData(p)
    requires forall p :: p in payload.parts.value && IsAlternative(p) ==> FirstPlainData(SubpartsOf(p)).None?
    ensures BodyOf(payload, decode) == NoTextBody
  {
    ScanWithoutText(payload.parts.value, 0, NoTextBody, decode);
  }

  lemma {:induction false} ScanReachesPlain(parts: seq<Part>, i: nat, k: nat, body: string, decode: string -> string)
    requires i <= k < |parts| && IsPlainWithData(parts[k])
    requires forall j :: i <= j < k ==> !IsPlainWithData(parts[j])
    ensures Scan(parts, i, body, decode) == decode(DataOf(parts[k]).value)
    decreases k - i
  {
    if i < k {
      var b := if IsAlternative(parts[i]) && FirstPlainData(SubpartsOf(parts[i])).Some?
               then decode(FirstPlainData(SubpartsOf(parts[i])).value) else body;
      ScanReachesPlain(parts, i + 1, k, b, decode);
    }
  }

  /**
   * The first top-level text/plain part with data decides the body, whatever
   * alternative parts came before it.
   */
  lemma FirstTopLevelPlainWins(payload: Part, decode: string -> string, k: nat)
    requires payload.parts.Some? && k < |payload.parts.value|
    requires IsPlainWithData(payload.parts.value[k])
    requires forall j :: 0 <= j < k ==> !IsPlainWithData(payload.parts.value[j])
    ensures BodyOf(payload, decode) == decode(DataOf(payload.parts.value[k]).value)
  {
    ScanReachesPlain(payload.parts.value, 0, k, NoTextBody, decode);
  }

  lemma {:induction false} ScanAfterLastAlternative(parts: seq<Part>, i: nat, body: string, decode: string -> string)
    requires forall j :: i <= j < |parts| ==> !IsPlainWithData(parts[j])
    requires forall j :: i <= j < |parts| && IsAlternative(parts[j]) ==> FirstPlainData(SubpartsOf(parts[j])).None?
    ensures Scan(parts, i, body, decode) == body
    decreases |parts| - i
  {
    if i < |parts| {
      ScanAfterLastAlternative(parts, i + 1, body, decode);
    }
  }

  lemma {:induction false} ScanReachesAlternative(parts: seq<Part>, i: nat, k: nat, body: string, decode: string -> string)
    requires i <= k < |parts| && IsAlternative(parts[k]) && FirstPlainData(SubpartsOf(parts[k])).Some?
    requires forall j :: i <= j < |parts| ==> !IsPlainWithData(parts[j])
    requires forall j :: k < j < |parts| && IsAlternative(parts[j]) ==> FirstPlainData(SubpartsOf(parts[j])).None?
    ensures Scan(parts, i, body, decode) == decode(FirstPlainData(SubpartsOf(parts[k])).value)
    decreases k - i
  {
    if i < k {
      var b := if IsAlternative(parts[i]) && FirstPlainData(SubpartsOf(parts[i])).Some?
               then decode(FirstPlainData(SubpartsOf(parts[i])).value) else body;
      ScanReachesAlternative(parts, i + 1, k, b, decode);
    } else {
      ScanAfterLastAlternative(parts, k + 1, decode(FirstPlainData(SubpartsOf(parts[k])).value), decode);
    }
  }

  /**
   * Without a top-level text/plain part, the body comes from the LAST
   * alternative part that has a plain subpart (its first one): the inner
   * `break` does not stop the outer loop, so later alternatives overwrite.
   */
  lemma LastAlternativeWins(payload: Part, decode: string -> string, k: nat)
    requires payload.parts.Some? && k < |payload.parts.value|
    requires IsAlternative(payload.parts.value[k]) && FirstPlainData(SubpartsOf(payload.parts.value[k])).Some?
    requires forall p :: p in payload.parts.value ==> !IsPlainWithData(p)
    requires forall j :: k < j < |payload.parts.value| && IsAlternative(payload.parts.value[j]) ==>
               FirstPlainData(SubpartsOf(payload.parts.value[j])).None?
    ensures BodyOf(payload, decode) == decode(FirstPlainData(SubpartsOf(payload.parts.value[k])).value)
  {
    ScanReachesAlternative(payload.parts.value, 0, k, NoTextBody, decode);
  }

  // ----- Folder resolution and message listing -----

  datatype Label = Label(id: string, name: string)

  /** The id of the first label whose name equals the folder name, ignoring case. */
  function FirstMatchingLabel(labels: seq<Label>, folderName: string): (r: Option<string>)
    ensures r.None? <==> forall i :: 0 <= i < |labels| ==> Lower(labels[i].name) != Lower(folderName)
    ensures r.Some? ==> exists i :: 0 <= i < |labels| && Lower(labels[i].name) == Lower(folderName)
                                    && labels[i].id == r.value
                                    && forall j :: 0 <= j < i ==> Lower(labels[j].name) != Lower(folderName)
  {
    if labels == [] then None
    else if Lower(labels[0].name) == Lower(folderName) then Some(labels[0].id)
    else
      var r := FirstMatchingLabel(labels[1..], folderName);
      assert forall i :: 1 <= i < |labels| ==> labels[i] == labels[1..][i - 1];
      r
  }

  /**
   * The folder's label id, or the `ValueError` message when no label
   * matches (or the first match has an empty, hence falsy, id).
   */
  function ResolveFolder(labels: seq<Label>, folderName: string): (r: Result<string, string>)
    ensures r.Ok? ==> r.value != ""
    ensures r.Ok? <==> FirstMatchingLabel(labels, folderName).Some? && FirstMatchingLabel(labels, folderName).value != ""
    ensures r.Ok? ==> r.value == FirstMatchingLabel(labels, folderName).value
    ensures r.Err? ==> r.error == "Folder '" + folderName + "' not found."
  {
    match FirstMatchingLabel(labels, folderName)
    case Some(id) => if id != "" then Ok(id) else Err("Folder '" + folderName + "' not found.")
    case None => Err("Folder '" + folderName + "' not found.")
  }

  /** A caller-owned Python list of label ids, which the function may extend in place. */
  class LabelIdList {
    var items: seq<string>

    constructor (items: seq<string>)
      ensures this.items == items
    {
      this.items := items;
    }
  }

  /**
   * `get_email_messages`: resolve the folder, extend the caller's label list
   * (or start a fresh one), then paginate over 'messages' up to the cap.
   * `usedLabelIds` is the list sent with every request.
   */
  method GetEmailMessages(labels: seq<Label>, labelIds: LabelIdList?, folderName: string, maxResults: int,
                          responses: seq<GmailSearch.Response<string>>)
    returns (messages: Result<seq<string>, string>, usedLabelIds: Option<seq<string>>,
             requests: seq<GmailSearch.Request>)
    modifies labelIds
    ensures folderName != "" && ResolveFolder(labels, folderName).Err? ==>
              messages == Err(ResolveFolder(labels, folderName).error) && requests == []
              && (labelIds != null ==> labelIds.items == old(labelIds.items))
    ensures folderName != "" && ResolveFolder(labels, folderName).Ok? ==>
              var id := ResolveFolder(labels, folderName).value;
              if labelIds != null && old(labelIds.items) != []
              then labelIds.items == old(labelIds.items) + [id] && usedLabelIds == Some(labelIds.items)
              else usedLabelIds == Some([id]) && (labelIds != null ==> labelIds.items == old(labelIds.items))
    ensures folderName == "" ==>
              (labelIds != null ==> labelIds.items == old(labelIds.items))
              && usedLabelIds == (if labelIds == null then None else Some(labelIds.items))
    ensures (folderName == "" || ResolveFolder(labels, folderName).Ok?) ==>
              messages == Ok(GmailSearch.SearchResult(responses, "messages", maxResults))
              && requests == GmailSearch.Requests(responses, "messages", maxResults)
    ensures messages.Ok? && maxResults > 0 ==> |messages.value| <= maxResults
  {
    usedLabelIds := if labelIds == null then None else Some(labelIds.items);
    if folderName != "" {
      var folder := ResolveFolder(labels, folderName);
      if folder.Err? {
        return Err(folder.error), usedLabelIds, [];
      }
      if labelIds != null && labelIds.items != [] {
        labelIds.items := labelIds.items + [folder.value];
        usedLabelIds := Some(labelIds.items);
      } else {
        usedLabelIds := Some([folder.value]);
      }
    }
    var items;
    items, requests := GmailSearch.Paginate(responses, "messages", maxResults);
    messages := Ok(items);
  }

  // ----- Message details -----

  /** The message resource fields the summary reads; absent keys are `None`. */
  datatype Message = Message(payload: Option<Part>, snippet: Option<string>, labelIds: Option<seq<string>>)

  datatype Details = Details(subject: string, sender: string, recipients: string, body: string, snippet: string,
                             hasAttachments: bool, date: string, star: bool, labelText: string)

  predicate NameMatches(h: Header, name: string, ignoreCase: bool) {
    if ignoreCase then Lower(h.name) == name else h.name == name
  }

  /** The value of the first header with the given name. */
  function FirstHeader(headers: seq<Header>, name: string, ignoreCase: bool): (r: Option<string>)
    ensures r.None? <==> forall i :: 0 <= i < |headers| ==> !NameMatches(headers[i], name, ignoreCase)
    ensures r.Some? ==> exists i :: 0 <= i < |headers| && NameMatches(headers[i], name, ignoreCase)
                                    && headers[i].value == r.value
                                    && forall j :: 0 <= j < i ==> !NameMatches(headers[j], name, ignoreCase)
  {
    if headers == [] then None
    else if NameMatches(headers[0], name, ignoreCase) then Some(headers[0].value)
    else
      var r := FirstHeader(headers[1..], name, ignoreCase);
      assert forall i :: 1 <= i < |headers| ==> headers[i] == headers[1..][i - 1];
      r
  }

  predicate HasFilename(p: Part) {
    p.filename.Some? && p.filename.value != ""
  }

  /**
   * `get_email_message_details` on a fetched message. A message without a
   * payload makes the Python code fail (`None` has no `get`): `Err`.
   */
  function MessageDetails(msg: Message, decode: string -> string): (r: Result<Details, string>)
    ensures r.Err? <==> msg.payload.None?
    ensures r.Ok? ==> (r.value.star <==> "STARRED" in msg.labelIds.GetOr([]))
    ensures r.Ok? ==> (r.value.hasAttachments <==> exists p :: p in msg.payload.value.parts.GetOr([]) && HasFilename(p))
    ensures r.Ok? ==> r.value.labelText == Join(", ", msg.labelIds.GetOr([]))
    ensures r.Ok? ==> r.value.body == BodyOf(msg.payload.value, decode)
    ensures r.Ok? ==> r.value.snippet == msg.snippet.GetOr("No snippet")
    ensures r.Ok? ==> var hs := msg.payload.value.headers.GetOr([]);
                      r.value.sender == FirstHeader(hs, "From", false).GetOr("No sender")
                      && r.value.recipients == FirstHeader(hs, "To", false).GetOr("No recipients")
                      && r.value.date == FirstHeader(hs, "Date", false).GetOr("No date")
    ensures r.Ok? ==> var subject := FirstHeader(msg.payload.value.headers.GetOr([]), "subject", true);
                      r.value.subject == if subject.Some? && subject.value != "" then subject.value
                                         else msg.snippet.GetOr("No subject")
  {
    match msg.payload
    case None => Err("'NoneType' object has no attribute 'get'")
    case Some(payload) =>
      var headers := payload.headers.GetOr([]);
      var subject := match FirstHeader(headers, "subject", true)
                     case Some(v) => if v != "" then v else msg.snippet.GetOr("No subject")
                     case None => msg.snippet.GetOr("No subject");
      var labelIds := msg.labelIds.GetOr([]);
      Ok(Details(
        subject := subject,
        sender := FirstHeader(headers, "From", false).GetOr("No sender"),
        recipients := FirstHeader(headers, "To", false).GetOr("No recipients"),
        body := BodyOf(payload, decode),
        snippet := msg.snippet.GetOr("No snippet"),
        hasAttachments := exists p :: p in payload.parts.GetOr([]) && HasFilename(p),
        date := FirstHeader(headers, "Date", false).GetOr("No date"),
        star := "STARRED" in labelIds,
        labelText := Join(", ", labelIds)))
  }

  /**
   * The subject is the value of the first header named "subject" in any
   * case; when there is none, or its value is empty, the snippet stands in,
   * and 'No subject' when the message has no snippet either.
   */
  lemma SubjectChoice(msg: Message, decode: string -> string, i: nat)
    requires msg.payload.Some?
    requires var hs := msg.payload.value.headers.GetOr([]);
             i < |hs| && Lower(hs[i].name) == "subject"
             && forall j :: 0 <= j < i ==> Lower(hs[j].name) != "subject"
    ensures var hs := msg.payload.value.headers.GetOr([]);
            MessageDetails(msg, decode).value.subject
              == if hs[i].value != "" then hs[i].value else msg.snippet.GetOr("No subject")
  {
    var hs := msg.payload.value.headers.GetOr([]);
    var r := FirstHeader(hs, "subject", true);
    assert NameMatches(hs[i], "subject", true);
    var k :| 0 <= k < |hs| && NameMatches(hs[k], "subject", true) && hs[k].value == r.value
             && forall j :: 0 <= j < k ==> !NameMatches(hs[j], "subject", true);
  }

  /** A summary field read from an exactly named header: "From", "To" or "Date". */
  function HeaderField(d: Details, name: string): string {
    if name == "From" then d.sender else if name == "To" then d.recipients else d.date
  }

  /**
   * Sender, recipients and date come from the first header whose name is
   * exactly "From", "To" or "Date"; the match is case-sensitive.
   */
  lemma FirstExactHeader(msg: Message, decode: string -> string, name: string, i: nat)
    requires msg.payload.Some? && name in ["From", "To", "Date"]
    requires var hs := msg.payload.value.headers.GetOr([]);
             i < |hs| && hs[i].name == name && forall j :: 0 <= j < i ==> hs[j].name != name
    ensures HeaderField(MessageDetails(msg, decode).value, name) == msg.payload.value.headers.GetOr([])[i].value
  {
    var hs := msg.payload.value.headers.GetOr([]);
    var r := FirstHeader(hs, name, false);
    assert NameMatches(hs[i], name, false);
    var k :| 0 <= k < |hs| && NameMatches(hs[k], name, false) && hs[k].value == r.value
             && forall j :: 0 <= j < k ==> !NameMatches(hs[j], name, false);
    assert k == i;
  }

  /**
   * Without a matching header each field takes its default: the snippet
   * (else 'No subject') for the subject, 'No sender', 'No recipients' and
   * 'No date' for the others. A header named "from" does not count as
   * "From".
   */
  lemma HeaderDefaults(msg: Message, decode: string -> string)
    requires msg.payload.Some?
    ensures var hs := msg.payload.value.headers.GetOr([]);
            var d := MessageDetails(msg, decode).value;
            ((forall i :: 0 <= i < |hs| ==> Lower(hs[i].name) != "subject") ==> d.subject == msg.snippet.GetOr("No subject"))
            && ((forall i :: 0 <= i < |hs| ==> hs[i].name != "From") ==> d.sender == "No sender")
            && ((forall i :: 0 <= i < |hs| ==> hs[i].name != "To") ==> d.recipients == "No recipients")
            && ((forall i :: 0 <= i < |hs| ==> hs[i].name != "Date") ==> d.date == "No date")
  {
    var hs := msg.payload.value.headers.GetOr([]);
    if forall i :: 0 <= i < |hs| ==> Lower(hs[i].name) != "subject" {
      assert forall i :: 0 <= i < |hs| ==> !NameMatches(hs[i], "subject", true);
    }
    if forall i :: 0 <= i < |hs| ==> hs[i].name != "From" {
      assert forall i :: 0 <= i < |hs| ==> !NameMatches(hs[i], "From", false);
    }
    if forall i :: 0 <= i < |hs| ==> hs[i].name != "To" {
      assert forall i :: 0 <= i < |hs| ==> !NameMatches(hs[i], "To", false);
    }
    if forall i :: 0 <= i < |hs| ==> hs[i].name != "Date" {
      assert forall i :: 0 <= i < |hs| ==> !NameMatches(hs[i], "Date", false);
    }
  }
}
