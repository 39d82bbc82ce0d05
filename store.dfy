/**
 * The rows of the SQLite tables that the routes read and write
 * (backend/src/db/database.ts), and the database itself as an object whose
 * tables the route handlers update in place.
 */
module Store {
  import opened Wrappers

  /** A row of `emails`; `category` and `priority` are NULL until an action sets them. */
  datatype Email = Email(
    id: int,
    subject: string,
    fromEmail: string,
    fromName: string,
    toEmail: string,
    body: string,
    date: string,
    read: bool,
    category: Option<string>,
    priority: Option<string>)

  /** A row of `prompt_templates`; `kind` is the `type` column. */
  datatype PromptTemplate = PromptTemplate(name: string, description: string, template: string, kind: string)

  /** A row of `chat_messages`; a general chat has no `email_id`. */
  datatype ChatMessage = ChatMessage(id: nat, role: string, content: string, emailId: Option<int>)

  class Database {
    /** `emails`, keyed by the primary key. */
    var emails: map<int, Email>
    /** `prompt_templates`, in insertion (row id) order. */
    var prompts: seq<PromptTemplate>
    /** `chat_messages`, in insertion order. */
    var chatMessages: seq<ChatMessage>
    /** The id AUTOINCREMENT gives the next chat message. */
    var nextChatId: nat

    /** The constraints of the three tables hold of their current contents. */
    predicate Valid()
      reads this
    {
      TablesValid(emails, prompts, chatMessages, nextChatId)
    }

    constructor(initialEmails: map<int, Email>, initialPrompts: seq<PromptTemplate>)
      requires forall id :: id in initialEmails ==> initialEmails[id].id == id
      requires NamesDistinct(initialPrompts)
      ensures Valid()
      ensures emails == initialEmails && prompts == initialPrompts && chatMessages == [] && nextChatId == 1
    {
      emails := initialEmails;
      prompts := initialPrompts;
      chatMessages := [];
      nextChatId := 1;
    }

    /**
     * `INSERT INTO chat_messages (role, content, email_id)`: the new row takes
     * the next id; with `foreign_keys = ON` an `email_id` naming no email makes
     * the statement fail and leaves the table as it was.
     */
    method InsertChatMessage(role: string, content: string, emailId: Option<int>) returns (row: Option<ChatMessage>)
      requires Valid()
      modifies this
      ensures Valid()
      ensures row.None? <==> !References(old(emails), emailId)
      ensures row.Some? ==> row.value == ChatMessage(old(nextChatId), role, content, emailId)
                            && chatMessages == old(chatMessages) + [row.value] && nextChatId == old(nextChatId) + 1
      ensures row.None? ==> chatMessages == old(chatMessages) && nextChatId == old(nextChatId)
      ensures emails == old(emails) && prompts == old(prompts)
    {
      if !References(emails, emailId) {
        return None;
      }
      var r := ChatMessage(nextChatId, role, content, emailId);
      chatMessages := chatMessages + [r];
      nextChatId := nextChatId + 1;
      row := Some(r);
    }
  }

  /**
   * The tables' constraints: every email is stored under its own primary key;
   * prompt names are UNIQUE; every chat id is below the next AUTOINCREMENT
   * value, and every chat row's `email_id` is NULL or names an email (the
   * foreign key).
   */
  predicate TablesValid(emails: map<int, Email>, prompts: seq<PromptTemplate>, chatMessages: seq<ChatMessage>,
                        nextChatId: nat)
  {
    (forall id :: id in emails ==> emails[id].id == id)
    && NamesDistinct(prompts)
    && (forall i :: 0 <= i < |chatMessages| ==> chatMessages[i].id < nextChatId)
    && (forall i :: 0 <= i < |chatMessages| ==> References(emails, chatMessages[i].emailId))
  }

  /** No two rows share a name. */
  predicate NamesDistinct(rows: seq<PromptTemplate>) {
    forall i, j :: 0 <= i < j < |rows| ==> rows[i].name != rows[j].name
  }

  /** `FOREIGN KEY (email_id) REFERENCES emails(id)`: NULL, or the id of an email. */
  predicate References(emails: map<int, Email>, emailId: Option<int>) {
    emailId.None? || emailId.value in emails
  }

  /** Replacing an email by one with the same id keeps every constraint. */
  lemma UpdateKeepsTables(emails: map<int, Email>, prompts: seq<PromptTemplate>, chatMessages: seq<ChatMessage>,
                          nextChatId: nat, id: int, e: Email)
    requires TablesValid(emails, prompts, chatMessages, nextChatId)
    requires id in emails && e.id == id
    ensures TablesValid(emails[id := e], prompts, chatMessages, nextChatId)
  {
    var after := emails[id := e];
    forall i | 0 <= i < |chatMessages| ensures References(after, chatMessages[i].emailId) {
      assert References(emails, chatMessages[i].emailId);
    }
  }

  /** Appending a row whose name no row has keeps the names distinct. */
  lemma AppendKeepsNamesDistinct(rows: seq<PromptTemplate>, d: PromptTemplate)
    requires NamesDistinct(rows)
    requires forall i :: 0 <= i < |rows| ==> rows[i].name != d.name
    ensures NamesDistinct(rows + [d])
  {
    var r := rows + [d];
    forall i, j | 0 <= i < j < |r| ensures r[i].name != r[j].name {
      if j < |rows| {
        assert r[i] == rows[i] && r[j] == rows[j];
      } else {
        assert r[i] == rows[i] && r[j] == d;
      }
    }
  }

  /** `SELECT * FROM prompt_templates WHERE type = ?` with `.get`: the first row of that type, if any. */
  function TemplateOfType(rows: seq<PromptTemplate>, kind: string): (r: Option<PromptTemplate>)
    ensures r.None? <==> forall i :: 0 <= i < |rows| ==> rows[i].kind != kind
    ensures r.Some? ==> exists i :: 0 <= i < |rows| && rows[i] == r.value
                          && r.value.kind == kind && forall j :: 0 <= j < i ==> rows[j].kind != kind
  {
    if |rows| == 0 then None
    else if rows[0].kind == kind then Some(rows[0])
    else
      var r := TemplateOfType(rows[1..], kind);
      assert forall i :: 1 <= i < |rows| ==> rows[i] == rows[1..][i - 1];
      r
  }

  /** `SELECT COUNT(*) FROM prompt_templates WHERE name = ?` */
  function CountNamed(rows: seq<PromptTemplate>, name: string): (n: nat)
    ensures n == 0 <==> forall i :: 0 <= i < |rows| ==> rows[i].name != name
    ensures n <= |rows|
  {
    if |rows| == 0 then 0
    else
      var rest := CountNamed(rows[1..], name);
      assert forall i :: 1 <= i < |rows| ==> rows[i] == rows[1..][i - 1];
      (if rows[0].name == name then 1 else 0) + rest
  }
}
