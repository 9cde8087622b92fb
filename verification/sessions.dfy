/**
 * The per-user state of the WhatsApp assistant: a session per phone number
 * holding the chat history (only the newest 20 messages are kept) and a
 * context that remembers the preferred language, in a registry that
 * creates a session the first time a number is seen.  The language
 * command handler and the preferred-language lookup work on it.
 */
module Sessions {
  import opened Values
  import opened Text
  import opened Languages

  /** `{"role": role, "content": content}`. */
  datatype ChatMessage = ChatMessage(role: string, content: string)

  const HistoryLimit: nat := 20
  const PreferredLanguageKey := "preferred_language"

  /** `s[-n:]` for `n > 0`: the last `n` elements, or all when there are fewer. */
  function LastN<T>(s: seq<T>, n: nat): (r: seq<T>)
    ensures |r| == if |s| < n then |s| else n
    ensures r == s[|s| - |r|..]
  {
    if |s| > n then s[|s| - n..] else s
  }

  /** Keeping the last `n` and then adding more keeps the last `n` of everything. */
  lemma LastNThenAppend<T>(x: seq<T>, y: seq<T>, n: nat)
    ensures LastN(LastN(x, n) + y, n) == LastN(x + y, n)
  {
    if |x| > n {
      var k := |x| - n;
      assert LastN(x, n) + y == (x + y)[k..];
    }
  }

  /** The history after `add_message`: the message appended, and then only
      the newest `HistoryLimit` entries kept, oldest first. */
  function Appended(history: seq<ChatMessage>, m: ChatMessage): (h: seq<ChatMessage>)
    ensures |h| <= HistoryLimit && |h| > 0 && h[|h| - 1] == m
    ensures |history| < HistoryLimit ==> h == history + [m]
    ensures |history| == HistoryLimit ==> h == history[1..] + [m]
  {
    LastN(history + [m], HistoryLimit)
  }

  /** The history after adding each of `ms` in turn. */
  function AppendedAll(history: seq<ChatMessage>, ms: seq<ChatMessage>): seq<ChatMessage>
    decreases |ms|
  {
    if ms == [] then history else AppendedAll(Appended(history, ms[0]), ms[1..])
  }

  /** However many messages arrive, the history is the newest 20 of all of
      them, in the order they arrived. */
  lemma {:induction false} HistoryIsNewestMessages(history: seq<ChatMessage>, ms: seq<ChatMessage>)
    requires |history| <= HistoryLimit
    ensures AppendedAll(history, ms) == LastN(history + ms, HistoryLimit)
    decreases |ms|
  {
    if ms == [] {
      assert history + ms == history;
    } else {
      var x := history + [ms[0]];
      var h1 := Appended(history, ms[0]);
      calc {
        AppendedAll(history, ms);
        AppendedAll(h1, ms[1..]);
        { HistoryIsNewestMessages(h1, ms[1..]); }
        LastN(h1 + ms[1..], HistoryLimit);
        LastN(LastN(x, HistoryLimit) + ms[1..], HistoryLimit);
        { LastNThenAppend(x, ms[1..], HistoryLimit); }
        LastN(x + ms[1..], HistoryLimit);
        { assert x + ms[1..] == history + ms; }
        LastN(history + ms, HistoryLimit);
      }
    }
  }

  /** `[msg['content'] for msg in recent if msg['role'] == 'user']`. */
  function UserContents(recent: seq<ChatMessage>): (cs: seq<string>)
    ensures |cs| <= |recent|
  {
    if recent == [] then []
    else (if recent[0].role == "user" then [recent[0].content] else []) + UserContents(recent[1..])
  }

  /** `" ".join(parts)`. */
  function JoinWithSpace(parts: seq<string>): (s: string)
    ensures parts == [] ==> s == ""
    ensures |parts| == 1 ==> s == parts[0]
    ensures |parts| > 1 ==> s != ""
  {
    if parts == [] then ""
    else if |parts| == 1 then parts[0]
    else parts[0] + " " + JoinWithSpace(parts[1..])
  }

  /** What `get_user_preferred_language` answers for a session with this
      context and history, and the context it leaves: the stored preference
      when there is one; otherwise the language detected from the user's
      messages among the last three, which is then stored; otherwise English. */
  function Preferred(context: map<string, string>, history: seq<ChatMessage>)
    : (out: (string, map<string, string>))
  {
    if PreferredLanguageKey in context then (context[PreferredLanguageKey], context)
    else
      var text := JoinWithSpace(UserContents(LastN(history, 3)));
      if text != "" then (DetectLanguage(text), context[PreferredLanguageKey := DetectLanguage(text)])
      else ("en", context)
  }

  predicate PreferenceSupported(context: map<string, string>) {
    PreferredLanguageKey in context ==> context[PreferredLanguageKey] in SupportedLanguages
  }

  /** The answer is a supported language whenever the stored preference is,
      and a preference once stored is what later lookups answer, whatever
      the history then is. */
  lemma PreferredIsSticky(context: map<string, string>, history: seq<ChatMessage>, later: seq<ChatMessage>)
    requires PreferenceSupported(context)
    ensures var (lang, context1) := Preferred(context, history);
      && lang in SupportedLanguages && PreferenceSupported(context1)
      && (PreferredLanguageKey in context1 ==> Preferred(context1, later) == (lang, context1))
  {
  }

  /** With no preference and no user message among the last three, the
      answer is English and nothing is stored. */
  lemma NoUserTextMeansEnglish(context: map<string, string>, history: seq<ChatMessage>)
    requires PreferredLanguageKey !in context
    requires forall i :: |history| - 3 <= i < |history| && 0 <= i ==> history[i].role != "user"
    ensures Preferred(context, history) == ("en", context)
  {
    var recent := LastN(history, 3);
    NoUserContents(recent);
  }

  lemma {:induction false} NoUserContents(recent: seq<ChatMessage>)
    requires forall i :: 0 <= i < |recent| ==> recent[i].role != "user"
    ensures UserContents(recent) == []
  {
    if recent != [] {
      NoUserContents(recent[1..]);
    }
  }

  /** `UserSession`. */
  class UserSession {
    const phoneNumber: string
    var chatHistory: seq<ChatMessage>
    var context: map<string, string>
    var lastActivity: string

    constructor(phoneNumber: string, now: string)
      ensures this.phoneNumber == phoneNumber
      ensures chatHistory == [] && context == map[] && lastActivity == now
    {
      this.phoneNumber := phoneNumber;
      chatHistory := [];
      context := map[];
      lastActivity := now;
    }

    /** `add_message`: append, stamp the activity time, and drop the oldest
        entries beyond the limit. */
    method AddMessage(role: string, content: string, now: string)
      modifies this
      ensures chatHistory == Appended(old(chatHistory), ChatMessage(role, content))
      ensures context == old(context) && lastActivity == now
    {
      chatHistory := chatHistory + [ChatMessage(role, content)];
      lastActivity := now;
      if |chatHistory| > HistoryLimit {
        chatHistory := chatHistory[|chatHistory| - HistoryLimit..];
      }
    }
  }

  /** `user_sessions`. */
  class SessionRegistry {
    var sessions: map<string, UserSession>

    /** Each session is stored under its own number, so no two numbers share
        a session, and every stored preference is a supported language. */
    predicate Valid()
      reads this, sessions.Values
    {
      forall p :: p in sessions ==>
        sessions[p].phoneNumber == p && PreferenceSupported(sessions[p].context)
    }

    constructor()
      ensures sessions == map[] && Valid()
    {
      sessions := map[];
    }

    /** `get_user_session`: the session of the number, created empty the
        first time the number is seen and the same one afterwards. */
    method GetUserSession(phone: string, now: string) returns (s: UserSession)
      requires Valid()
      modifies this
      ensures Valid()
      ensures phone in sessions && sessions[phone] == s && s.phoneNumber == phone
      ensures phone in old(sessions) ==> s == old(sessions[phone]) && sessions == old(sessions)
      ensures phone !in old(sessions) ==>
        fresh(s) && sessions == old(sessions)[phone := s] && s.chatHistory == [] && s.context == map[]
    {
      if phone !in sessions {
        var created := new UserSession(phone, now);
        sessions := sessions[phone := created];
      }
      s := sessions[phone];
    }

    /** `set_user_language`: only a supported code is stored (in the
        number's session, created if need be); any other code is refused and
        nothing changes. */
    method SetUserLanguage(phone: string, code: string, now: string) returns (ok: bool)
      requires Valid()
      modifies this, sessions.Values
      ensures Valid()
      ensures ok <==> code in SupportedLanguages
      ensures !ok ==> sessions == old(sessions)
      ensures ok ==> phone in sessions
      ensures ok && phone in old(sessions) ==>
        sessions[phone].context == old(sessions[phone].context)[PreferredLanguageKey := code]
      ensures ok && phone !in old(sessions) ==>
        sessions[phone].context == map[PreferredLanguageKey := code] && sessions[phone].chatHistory == []
      ensures ok ==> sessions.Keys == old(sessions).Keys + {phone}
      ensures forall p :: p in old(sessions) && (p != phone || !ok) ==>
        p in sessions && sessions[p] == old(sessions[p]) && sessions[p].context == old(sessions[p].context)
      ensures forall p :: p in old(sessions) ==>
        sessions[p].chatHistory == old(sessions[p].chatHistory) && sessions[p].lastActivity == old(sessions[p].lastActivity)
    {
      if code !in SupportedLanguages {
        return false;
      }
      var s := GetUserSession(phone, now);
      s.context := s.context[PreferredLanguageKey := code];
      ok := true;
    }

    /** `handle_language_commands`: a supported `language xx` stores the
        preference and confirms in that language, the menu answers the other
        command forms, and any other message is left to the caller.  The
        error reply is never produced, since a parsed code is always
        supported. */
    method HandleLanguageCommands(phone: string, message: string, now: string) returns (reply: Option<string>)
      requires Valid()
      modifies this, sessions.Values
      ensures Valid()
      ensures reply == CommandReply(ParseLanguageCommand(message))
      ensures reply != Some(SetLanguageError)
      ensures ParseLanguageCommand(message).SetLanguage? ==>
        var code := ParseLanguageCommand(message).code;
        && phone in sessions && sessions.Keys == old(sessions).Keys + {phone}
        && (phone in old(sessions) ==>
              sessions[phone].context == old(sessions[phone].context)[PreferredLanguageKey := code])
        && (phone !in old(sessions) ==>
              sessions[phone].context == map[PreferredLanguageKey := code] && sessions[phone].chatHistory == [])
      ensures ParseLanguageCommand(message).SetLanguage? ==>
        forall p :: p in old(sessions) && p != phone ==>
          p in sessions && sessions[p] == old(sessions[p]) && sessions[p].context == old(sessions[p].context)
      ensures !ParseLanguageCommand(message).SetLanguage? ==>
        sessions == old(sessions) && forall p :: p in sessions ==> sessions[p].context == old(sessions[p].context)
      ensures forall p :: p in old(sessions) ==>
        p in sessions && sessions[p].chatHistory == old(sessions[p].chatHistory)
        && sessions[p].lastActivity == old(sessions[p].lastActivity)
    {
      var command := ParseLanguageCommand(message);
      ReplyIsNeverAnError(command);
      match command
      case SetLanguage(code) =>
        var ok := SetUserLanguage(phone, code, now);
        if ok {
          reply := Some(Confirmation(code));
        } else {
          reply := Some(SetLanguageError);
        }
      case ShowMenu =>
        reply := Some(LanguageMenu);
      case NotACommand =>
        reply := None;
    }

    /** `get_user_preferred_language`. */
    method PreferredLanguage(phone: string, now: string) returns (lang: string)
      requires Valid()
      modifies this, sessions.Values
      ensures Valid()
      ensures lang in SupportedLanguages
      ensures phone in sessions
      ensures phone in old(sessions) ==>
        (lang, sessions[phone].context) == Preferred(old(sessions[phone].context), old(sessions[phone].chatHistory))
      ensures phone !in old(sessions) ==>
        lang == "en" && sessions[phone].context == map[] && sessions[phone].chatHistory == []
      ensures sessions.Keys == old(sessions).Keys + {phone}
      ensures forall p :: p in old(sessions) && p != phone ==>
        p in sessions && sessions[p] == old(sessions[p]) && sessions[p].context == old(sessions[p].context)
      ensures forall p :: p in old(sessions) ==>
        p in sessions && sessions[p].chatHistory == old(sessions[p].chatHistory)
        && sessions[p].lastActivity == old(sessions[p].lastActivity)
    {
      var s := GetUserSession(phone, now);
      if PreferredLanguageKey in s.context {
        return s.context[PreferredLanguageKey];
      }
      var recent := LastN(s.chatHistory, 3);
      var allText := JoinWithSpace(UserContents(recent));
      if allText != "" {
        lang := DetectLanguage(allText);
        s.context := s.context[PreferredLanguageKey := lang];
        return lang;
      }
      return "en";
    }
  }
}
