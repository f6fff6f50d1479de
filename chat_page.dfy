/** The home-page chat: the lead-capture heuristics applied to each message
    the visitor sends (name, WhatsApp number, team of interest), the
    write-once merge of what they find, and the streaming update of the
    assistant's reply. */
module ChatPage {
  import opened Wrappers
  import opened Text
  import Seqs

  datatype Role = User | Assistant

  datatype ChatMessage = ChatMessage(id: string, role: Role, content: string)

  /** What the page knows about the visitor; an absent field is `None`. */
  datatype LeadInfo = LeadInfo(name: Option<string>, whatsapp: Option<string>, teamInterest: Option<string>)

  /** The body of one `saveLead` call: one captured field. */
  datatype LeadPatch = SaveName(name: string) | SaveWhatsApp(whatsapp: string) | SaveTeam(team: string)

  /** One turn as sent to the chat endpoint (the id is not sent). */
  datatype Turn = Turn(role: Role, content: string)

  /** The body of one request to the chat endpoint. */
  datatype ChatRequest = ChatRequest(turns: seq<Turn>, leadInfo: LeadInfo)

  /** How the chat endpoint answered: a failed request (thrown or not ok),
      a response without a readable body, or a stream of decoded chunks,
      possibly interrupted by a read error. */
  datatype Reply = Failed | NoReader | Streamed(chunks: seq<string>, interrupted: bool)

  const WelcomeText: string :=
    "Olá! \U{1F44B} Bem-vindo à GolClub!\n\nSou seu assistente virtual e estou aqui para te ajudar a encontrar a camisa perfeita do seu time do coração. \U{26BD}\n\nQual time você torce?"

  const ErrorText: string := "Desculpe, ocorreu um erro. Tente novamente."

  /** s contains at least one of the cues. */
  predicate MentionsAny(s: string, cues: seq<string>) {
    exists k :: 0 <= k < |cues| && Contains(s, cues[k])
  }

  // ---------------------------------------------------------------- name

  const NameCues: seq<string> := ["como posso te chamar", "qual seu nome", "qual o seu nome", "me chamo", "seu nome"]

  /** `[A-ZÀ-Ú]`: code points, as the regular expression compares them. */
  predicate IsNameInitial(c: char) {
    'A' <= c <= 'Z' || '\U{C0}' <= c <= '\U{DA}'
  }

  /** `[a-zà-ú]`. */
  predicate IsNameRest(c: char) {
    'a' <= c <= 'z' || '\U{E0}' <= c <= '\U{FA}'
  }

  /** A truthy word of 2 to 20 UTF-16 units matching `^[A-ZÀ-Ú][a-zà-ú]+$`. */
  predicate LooksLikeName(w: string) {
    w != "" && 2 <= Utf16Length(w) <= 20
    && |w| >= 2 && IsNameInitial(w[0]) && forall k :: 1 <= k < |w| ==> IsNameRest(w[k])
  }

  /** `extractName`: only after the assistant asked for a name (one of the
      cues occurs in its lower-cased last message), the first word of the
      trimmed message when it looks like a name, otherwise, for a short
      answer, its first space-separated token. */
  function ExtractName(message: string, previous: string): (r: Option<string>)
    ensures r.Some? ==> MentionsAny(Lower(previous), NameCues)
    ensures r.Some? ==> r.value <= Trim(message) && ' ' !in r.value
    ensures r.Some? ==> (r.value == "" <==> Trim(message) == "")
  {
    if !MentionsAny(Lower(previous), NameCues) then None
    else
      var t := Trim(message);
      var words := SplitWs(t);
      var firstWord := words[0];
      if LooksLikeName(firstWord) then
        assert ' ' !in firstWord by {
          forall k | 0 <= k < |firstWord| ensures firstWord[k] != ' ' {
            assert !IsSpace(words[0][k]);
          }
        }
        Some(firstWord)
      else if (Utf16Length(t) <= 30 && ' ' !in message) || |words| <= 2 then
        TrimEnds(message);
        Some(Split(t, ' ')[0])
      else None
  }

  /** With a cue present, a first word that looks like a name is the name. */
  lemma NameWordWins(message: string, previous: string)
    requires MentionsAny(Lower(previous), NameCues)
    requires LooksLikeName(SplitWs(Trim(message))[0])
    ensures ExtractName(message, previous) == Some(SplitWs(Trim(message))[0])
  {
  }

  /** With a cue present and a short answer, the first space-separated token
      of the trimmed message is the name, whatever its letters. */
  lemma ShortAnswerIsName(message: string, previous: string)
    requires MentionsAny(Lower(previous), NameCues)
    requires (Utf16Length(Trim(message)) <= 30 && ' ' !in message) || |SplitWs(Trim(message))| <= 2
    ensures ExtractName(message, previous).Some?
    ensures !LooksLikeName(SplitWs(Trim(message))[0]) ==>
              ExtractName(message, previous) == Some(Split(Trim(message), ' ')[0])
  {
  }

  /** A long sentence whose first word is not a name gives no name. */
  lemma LongSentenceNoName(message: string, previous: string)
    requires !LooksLikeName(SplitWs(Trim(message))[0])
    requires Utf16Length(Trim(message)) > 30 || ' ' in message
    requires |SplitWs(Trim(message))| > 2
    ensures ExtractName(message, previous) == None
  {
  }

  // ------------------------------------------------------------ whatsapp

  const PhoneCues: seq<string> := ["whatsapp", "telefone", "celular"]

  /** n digits start at position i of s. */
  predicate RunAt(s: string, i: nat, n: nat) {
    i + n <= |s| && forall k :: i <= k < i + n ==> IsDigit(s[k])
  }

  /** The two patterns `extractWhatsApp` tries: `\d{10,11}` and
      `\(?\d{2}\)?\s*\d{4,5}[-\s]?\d{4}`. */
  datatype Pattern = Plain | Formatted

  /** The length of the run of white space starting at p (what a greedy
      `\s*` consumes; a shorter run leaves a space where a digit is needed). */
  function SpaceRun(s: string, p: nat): (n: nat)
    requires p <= |s|
    ensures p + n <= |s| && forall k :: p <= k < p + n ==> IsSpace(s[k])
    ensures p + n == |s| || !IsSpace(s[p + n])
    decreases |s| - p
  {
    if p < |s| && IsSpace(s[p]) then 1 + SpaceRun(s, p + 1) else 0
  }

  /** The number of digits among s[a..b]. */
  function DigitsIn(s: string, a: nat, b: nat): nat
    requires a <= b <= |s|
    decreases b - a
  {
    if a == b then 0 else (if IsDigit(s[a]) then 1 else 0) + DigitsIn(s, a + 1, b)
  }

  lemma {:induction false} DigitsInSplit(s: string, a: nat, b: nat, c: nat)
    requires a <= b <= c <= |s|
    ensures DigitsIn(s, a, c) == DigitsIn(s, a, b) + DigitsIn(s, b, c)
    decreases b - a
  {
    if a < b {
      DigitsInSplit(s, a + 1, b, c);
    }
  }

  /** A run of n digits counts n. */
  lemma {:induction false} DigitsInRun(s: string, i: nat, n: nat)
    requires RunAt(s, i, n)
    ensures DigitsIn(s, i, i + n) == n
    decreases n
  {
    if n > 0 {
      DigitsInRun(s, i + 1, n - 1);
    }
  }

  /** A stretch without digits counts none. */
  lemma {:induction false} DigitsInNone(s: string, a: nat, b: nat)
    requires a <= b <= |s| && forall k :: a <= k < b ==> !IsDigit(s[k])
    ensures DigitsIn(s, a, b) == 0
    decreases b - a
  {
    if a < b {
      DigitsInNone(s, a + 1, b);
    }
  }

  /** `replace(/\D/g, '')` on a slice keeps as many characters as it has digits. */
  lemma {:induction false} KeepDigitsCount(s: string, a: nat, b: nat)
    requires a <= b <= |s|
    ensures |KeepDigits(s[a..b])| == DigitsIn(s, a, b)
    decreases b - a
  {
    if a < b {
      assert s[a..b][0] == s[a] && s[a..b][1..] == s[a + 1..b];
      KeepDigitsCount(s, a + 1, b);
    }
  }

  /** `\(?\d{2}\)?\s*` from i: where it ends. Each optional bracket is taken
      when present and the white space run is taken whole, as the greedy
      matcher does; the alternatives that skip them leave a bracket or a space
      where a digit is needed. */
  function HeadEnd(s: string, i: nat): (e: Option<nat>)
    requires i <= |s|
    ensures e.Some? ==> i + 2 <= e.value <= |s| && DigitsIn(s, i, e.value) == 2
  {
    var p1 := if i < |s| && s[i] == '(' then i + 1 else i;
    if !RunAt(s, p1, 2) then None
    else
      var p2 := p1 + 2;
      var p3 := if p2 < |s| && s[p2] == ')' then p2 + 1 else p2;
      var p4 := p3 + SpaceRun(s, p3);
      HeadDigits(s, i, p1, p2, p3, p4);
      Some(p4)
  }

  lemma {:induction false} HeadDigits(s: string, i: nat, p1: nat, p2: nat, p3: nat, p4: nat)
    requires i <= p1 <= i + 1 && p2 == p1 + 2 && p2 <= p3 <= p2 + 1 && p3 <= p4 <= |s|
    requires p1 == i + 1 ==> s[i] == '('
    requires p3 == p2 + 1 ==> s[p2] == ')'
    requires RunAt(s, p1, 2) && forall k :: p3 <= k < p4 ==> IsSpace(s[k])
    ensures DigitsIn(s, i, p4) == 2
  {
    DigitsInSplit(s, i, p1, p4);
    DigitsInSplit(s, p1, p2, p4);
    DigitsInSplit(s, p2, p3, p4);
    DigitsInNone(s, i, p1);
    DigitsInRun(s, p1, 2);
    DigitsInNone(s, p2, p3);
    DigitsInNone(s, p3, p4);
  }

  /** `[-\s]?\d{4}` from p: the optional separator is taken when present, as
      the greedy `?` does; leaving it out would put it where a digit is
      needed. */
  function TailEnd(s: string, p: nat): (e: Option<nat>)
    requires p <= |s|
    ensures e.Some? ==> p + 4 <= e.value <= |s| && DigitsIn(s, p, e.value) == 4
  {
    if p < |s| && (s[p] == '-' || IsSpace(s[p])) then
      if RunAt(s, p + 1, 4) then
        DigitsInRun(s, p + 1, 4);
        Some(p + 5)
      else None
    else if RunAt(s, p, 4) then
      DigitsInRun(s, p, 4);
      Some(p + 4)
    else None
  }

  /** Where a match of the pattern starting at i ends, if one starts there,
      as a backtracking matcher finds it: `{10,11}` and `{4,5}` try the
      longer count first. */
  function MatchAt(pat: Pattern, s: string, i: nat): (e: Option<nat>)
    requires i <= |s|
    ensures e.Some? ==> i <= e.value <= |s|
    ensures e.Some? && pat == Plain ==> RunAt(s, i, e.value - i) && (e.value == i + 10 || e.value == i + 11)
    ensures e.Some? && pat == Formatted ==> DigitsIn(s, i, e.value) == 10 || DigitsIn(s, i, e.value) == 11
  {
    match pat
    case Plain =>
      if RunAt(s, i, 11) then Some(i + 11) else if RunAt(s, i, 10) then Some(i + 10) else None
    case Formatted =>
      match HeadEnd(s, i)
      case None => None
      case Some(p4) =>
        if RunAt(s, p4, 5) && TailEnd(s, p4 + 5).Some? then
          FormattedDigits(s, i, p4, p4 + 5, TailEnd(s, p4 + 5).value);
          TailEnd(s, p4 + 5)
        else if RunAt(s, p4, 4) && TailEnd(s, p4 + 4).Some? then
          FormattedDigits(s, i, p4, p4 + 4, TailEnd(s, p4 + 4).value);
          TailEnd(s, p4 + 4)
        else None
  }

  /** The digits of a formatted match: 2, then 4 or 5, then 4. */
  lemma {:induction false} FormattedDigits(s: string, i: nat, p: nat, q: nat, e: nat)
    requires i <= p <= q <= e <= |s| && (q == p + 4 || q == p + 5) && RunAt(s, p, q - p)
    requires DigitsIn(s, i, p) == 2 && DigitsIn(s, q, e) == 4
    ensures DigitsIn(s, i, e) == 10 || DigitsIn(s, i, e) == 11
  {
    DigitsInSplit(s, i, p, e);
    DigitsInSplit(s, p, q, e);
    DigitsInRun(s, p, q - p);
  }

  /** `message.match(pattern)` from position `from`: the leftmost start and
      the end of the match found there. */
  function Search(pat: Pattern, s: string, from: nat): (r: Option<(nat, nat)>)
    requires from <= |s|
    ensures r.Some? ==> from <= r.value.0 <= |s| && MatchAt(pat, s, r.value.0) == Some(r.value.1)
    ensures r.Some? ==> forall j :: from <= j < r.value.0 ==> MatchAt(pat, s, j).None?
    ensures r.None? ==> forall j :: from <= j <= |s| ==> MatchAt(pat, s, j).None?
    decreases |s| - from
  {
    var here := MatchAt(pat, s, from);
    if here.Some? then Some((from, here.value))
    else if from == |s| then None
    else Search(pat, s, from + 1)
  }

  /** `extractWhatsApp`: only after the assistant asked for a phone, the
      first run of 10 or 11 digits, otherwise the digits of the first
      formatted number. */
  function ExtractWhatsApp(message: string, previous: string): (r: Option<string>)
    ensures r.Some? ==> MentionsAny(Lower(previous), PhoneCues)
    ensures r.Some? ==> AllDigits(r.value) && (|r.value| == 10 || |r.value| == 11)
  {
    if !MentionsAny(Lower(previous), PhoneCues) then None
    else
      match Search(Plain, message, 0)
      case Some((i, e)) =>
        assert forall k :: 0 <= k < e - i ==> message[i..e][k] == message[i + k];
        Some(message[i..e])
      case None =>
        match Search(Formatted, message, 0)
        case Some((i, e)) =>
          KeepDigitsCount(message, i, e);
          Some(KeepDigits(message[i..e]))
        case None => None
  }

  /** The plain pattern matches at i exactly when 10 digits start there. */
  lemma PlainMatchIff(s: string, i: nat)
    requires i <= |s|
    ensures MatchAt(Plain, s, i).Some? <==> RunAt(s, i, 10)
  {
  }

  /** A plain run of digits is preferred and returned as it stands: the
      leftmost run of 10 digits, with the eleventh when one follows. */
  lemma {:induction false} PlainRunWins(message: string, previous: string, i: nat)
    requires MentionsAny(Lower(previous), PhoneCues)
    requires RunAt(message, i, 10)
    requires forall j :: 0 <= j < i ==> !RunAt(message, j, 10)
    ensures ExtractWhatsApp(message, previous) ==
              Some(if RunAt(message, i, 11) then message[i..i + 11] else message[i..i + 10])
  {
    forall j | 0 <= j <= |message| ensures MatchAt(Plain, message, j).Some? <==> RunAt(message, j, 10) {
      PlainMatchIff(message, j);
    }
  }

  /** Without a plain run, the first formatted number, such as
      "(11) 98765-4321", is found and reduced to its digits. */
  lemma FormattedNumberFound(message: string, previous: string, i: nat)
    requires MentionsAny(Lower(previous), PhoneCues)
    requires Search(Plain, message, 0).None?
    requires i <= |message| && MatchAt(Formatted, message, i).Some?
    requires forall j :: 0 <= j < i ==> MatchAt(Formatted, message, j).None?
    ensures ExtractWhatsApp(message, previous) == Some(KeepDigits(message[i..MatchAt(Formatted, message, i).value]))
  {
    var r := Search(Formatted, message, 0);
    assert r.Some? && r.value.0 == i;
  }

  // ---------------------------------------------------------------- team

  const Teams: seq<string> :=
    ["flamengo", "corinthians", "palmeiras", "são paulo", "santos", "vasco", "fluminense", "botafogo",
     "grêmio", "internacional", "cruzeiro", "atlético", "real madrid", "barcelona"]

  /** `teams.find(t => lowerContent.includes(t))`: the first team of the list
      mentioned in the lower-cased message. */
  function DetectTeam(content: string): Option<string>
  {
    FirstMentioned(Teams, Lower(content))
  }

  /** The first of teams that text includes. */
  function FirstMentioned(teams: seq<string>, text: string): Option<string>
  {
    if teams == [] then None
    else if Contains(text, teams[0]) then Some(teams[0])
    else FirstMentioned(teams[1..], text)
  }

  /** The team found is the one at the first index k whose team the text
      includes: no team before k is included, and none is found exactly when
      k runs off the end of the list. */
  lemma {:induction false} FirstMentionedIndex(teams: seq<string>, text: string) returns (k: nat)
    ensures k <= |teams|
    ensures forall j :: 0 <= j < k ==> !Contains(text, teams[j])
    ensures k < |teams| ==> Contains(text, teams[k])
    ensures FirstMentioned(teams, text) == if k < |teams| then Some(teams[k]) else None
    decreases |teams|
  {
    if teams == [] || Contains(text, teams[0]) {
      k := 0;
    } else {
      var k' := FirstMentionedIndex(teams[1..], text);
      k := k' + 1;
      forall j | 0 < j < k
        ensures !Contains(text, teams[j])
      {
        assert teams[j] == teams[1..][j - 1];
      }
    }
  }

  // ---------------------------------------------------------- lead merge

  /** What one message yielded. */
  datatype Extraction = Extraction(name: Option<string>, whatsapp: Option<string>, team: Option<string>)

  datatype LeadField = NameField | WhatsAppField | TeamField

  function InfoField(info: LeadInfo, f: LeadField): Option<string> {
    match f
    case NameField => info.name
    case WhatsAppField => info.whatsapp
    case TeamField => info.teamInterest
  }

  function Extracted(e: Extraction, f: LeadField): Option<string> {
    match f
    case NameField => e.name
    case WhatsAppField => e.whatsapp
    case TeamField => e.team
  }

  /** One captured field: set only when the extraction is truthy and the
      field was not yet truthy. */
  function Captured(old_: Option<string>, found: Option<string>): Option<string> {
    if Truthy(found) && !Truthy(old_) then found else old_
  }

  /** `updatedLeadInfo` after the three write-once checks. */
  function MergedLead(info: LeadInfo, e: Extraction): (r: LeadInfo)
    ensures forall f :: InfoField(r, f) == Captured(InfoField(info, f), Extracted(e, f))
  {
    LeadInfo(Captured(info.name, e.name), Captured(info.whatsapp, e.whatsapp), Captured(info.teamInterest, e.team))
  }

  /** The `saveLead` calls, in order: one per field the merge set. */
  function LeadSaves(info: LeadInfo, e: Extraction): (r: seq<LeadPatch>)
    ensures |r| <= 3
    ensures SaveName(e.name.GetOr("")) in r <==> Truthy(e.name) && !Truthy(info.name)
  {
    (if Truthy(e.name) && !Truthy(info.name) then [SaveName(e.name.value)] else [])
    + (if Truthy(e.whatsapp) && !Truthy(info.whatsapp) then [SaveWhatsApp(e.whatsapp.value)] else [])
    + (if Truthy(e.team) && !Truthy(info.teamInterest) then [SaveTeam(e.team.value)] else [])
  }

  /** A field once captured is never overwritten, and a field is only ever
      set to a truthy extraction. */
  lemma WriteOnce(info: LeadInfo, e: Extraction, f: LeadField)
    ensures Truthy(InfoField(info, f)) ==> InfoField(MergedLead(info, e), f) == InfoField(info, f)
    ensures InfoField(MergedLead(info, e), f) != InfoField(info, f) ==>
              !Truthy(InfoField(info, f)) && Truthy(InfoField(MergedLead(info, e), f))
              && InfoField(MergedLead(info, e), f) == Extracted(e, f)
    ensures !Truthy(InfoField(info, f)) && Truthy(Extracted(e, f)) ==> InfoField(MergedLead(info, e), f) == Extracted(e, f)
    ensures !Truthy(InfoField(info, f)) && !Truthy(Extracted(e, f)) ==> InfoField(MergedLead(info, e), f) == InfoField(info, f)
  {
  }

  /** The lead after a whole conversation, message by message. */
  function MergeAll(info: LeadInfo, es: seq<Extraction>): LeadInfo
    decreases |es|
  {
    if es == [] then info else MergeAll(MergedLead(info, es[0]), es[1..])
  }

  /** Over a conversation the FIRST truthy value of each field wins: the field
      already held, or else the first message that yielded one. */
  lemma {:induction false} FirstCaptureWins(info: LeadInfo, es: seq<Extraction>, f: LeadField)
    ensures var v := InfoField(MergeAll(info, es), f);
            var k := Seqs.FirstIndex(es, (e: Extraction) => Truthy(Extracted(e, f)));
            && (Truthy(InfoField(info, f)) ==> v == InfoField(info, f))
            && (!Truthy(InfoField(info, f)) && k < |es| ==> v == Extracted(es[k], f))
            && (!Truthy(InfoField(info, f)) && k == |es| ==> v == InfoField(info, f))
    decreases |es|
  {
    if es != [] {
      var next := MergedLead(info, es[0]);
      FirstCaptureWins(next, es[1..], f);
      var p := (e: Extraction) => Truthy(Extracted(e, f));
      if !Truthy(InfoField(info, f)) && !p(es[0]) {
        assert Seqs.FirstIndex(es, p) == 1 + Seqs.FirstIndex(es[1..], p);
      }
    }
  }

  /** The extractions `sendMessage` makes from one message, given the last
      assistant message. */
  function LeadExtraction(content: string, previous: string): Extraction {
    Extraction(ExtractName(content, previous), ExtractWhatsApp(content, previous), DetectTeam(content))
  }

  /** The three write-once checks of `sendMessage`, each testing the lead as
      it was before the message and completing the copy `updated` in place. */
  method CaptureLead(info: LeadInfo, e: Extraction) returns (updated: LeadInfo, saves: seq<LeadPatch>)
    ensures updated == MergedLead(info, e)
    ensures saves == LeadSaves(info, e)
  {
    updated := info;
    saves := [];
    if Truthy(e.name) && !Truthy(info.name) {
      updated := updated.(name := e.name);
      saves := saves + [SaveName(e.name.value)];
    }
    if Truthy(e.whatsapp) && !Truthy(info.whatsapp) {
      updated := updated.(whatsapp := e.whatsapp);
      saves := saves + [SaveWhatsApp(e.whatsapp.value)];
    }
    if Truthy(e.team) && !Truthy(info.teamInterest) {
      updated := updated.(teamInterest := e.team);
      saves := saves + [SaveTeam(e.team.value)];
    }
  }

  // ------------------------------------------------------------ messages

  /** `[...messages].reverse().find(m => m.role === 'assistant')?.content || ''`. */
  function LastAssistantContent(msgs: seq<ChatMessage>): (r: string)
    ensures r != "" ==> exists i :: 0 <= i < |msgs| && msgs[i].role == Assistant && msgs[i].content == r
                                    && forall j :: i < j < |msgs| ==> msgs[j].role == User
    ensures (forall i :: 0 <= i < |msgs| ==> msgs[i].role == User) ==> r == ""
    ensures (exists i :: 0 <= i < |msgs| && msgs[i].role == Assistant) ==>
              exists i :: 0 <= i < |msgs| && msgs[i].role == Assistant && msgs[i].content == r
                          && forall j :: i < j < |msgs| ==> msgs[j].role == User
  {
    if msgs == [] then ""
    else if msgs[|msgs| - 1].role == Assistant then msgs[|msgs| - 1].content
    else LastAssistantContent(msgs[..|msgs| - 1])
  }

  function Turns(msgs: seq<ChatMessage>): (r: seq<Turn>)
    ensures |r| == |msgs|
    ensures forall k :: 0 <= k < |msgs| ==> r[k] == Turn(msgs[k].role, msgs[k].content)
  {
    seq(|msgs|, k requires 0 <= k < |msgs| => Turn(msgs[k].role, msgs[k].content))
  }

  /** `prev.map(m => m.id === id ? { ...m, content } : m)`. */
  function ReplaceContent(msgs: seq<ChatMessage>, id: string, content: string): (r: seq<ChatMessage>)
    ensures |r| == |msgs|
    ensures forall k :: 0 <= k < |msgs| && msgs[k].id != id ==> r[k] == msgs[k]
    ensures forall k :: 0 <= k < |msgs| && msgs[k].id == id ==> r[k] == ChatMessage(id, msgs[k].role, content)
  {
    seq(|msgs|, k requires 0 <= k < |msgs| => if msgs[k].id == id then msgs[k].(content := content) else msgs[k])
  }

  /** A later replacement overrides an earlier one. */
  lemma ReplaceTwice(msgs: seq<ChatMessage>, id: string, a: string, b: string)
    ensures ReplaceContent(ReplaceContent(msgs, id, a), id, b) == ReplaceContent(msgs, id, b)
  {
  }

  /** All chunks, in order. */
  function Concat(chunks: seq<string>): string
  {
    if chunks == [] then "" else Concat(chunks[..|chunks| - 1]) + chunks[|chunks| - 1]
  }

  /** The read loop: every chunk is appended to the content, and after each
      one the message `assistantId` is given the content so far. */
  method StreamReply(msgs: seq<ChatMessage>, assistantId: string, chunks: seq<string>)
    returns (content: string, out: seq<ChatMessage>)
    ensures content == Concat(chunks)
    ensures out == if chunks == [] then msgs else ReplaceContent(msgs, assistantId, content)
  {
    content := "";
    out := msgs;
    var k := 0;
    while k < |chunks|
      invariant 0 <= k <= |chunks|
      invariant content == Concat(chunks[..k])
      invariant out == if k == 0 then msgs else ReplaceContent(msgs, assistantId, content)
    {
      assert chunks[..k + 1][..k] == chunks[..k];
      if k > 0 {
        ReplaceTwice(msgs, assistantId, content, content + chunks[k]);
      }
      content := content + chunks[k];
      out := ReplaceContent(out, assistantId, content);
      k := k + 1;
    }
    assert chunks[..k] == chunks;
  }

  /** The messages after the chat endpoint answered. */
  function AfterReply(msgs: seq<ChatMessage>, reply: Reply, assistantId: string, errorId: string): seq<ChatMessage>
  {
    var placeholder := msgs + [ChatMessage(assistantId, Assistant, "")];
    match reply
    case Failed => msgs + [ChatMessage(errorId, Assistant, ErrorText)]
    case NoReader => placeholder
    case Streamed(chunks, interrupted) =>
      var streamed := if chunks == [] then placeholder else ReplaceContent(placeholder, assistantId, Concat(chunks));
      if interrupted then streamed + [ChatMessage(errorId, Assistant, ErrorText)] else streamed
  }

  /** With a fresh assistant id, a complete stream leaves the earlier messages
      as they were and adds one assistant message holding all the chunks. */
  lemma StreamedReplyAppendsOne(msgs: seq<ChatMessage>, chunks: seq<string>, assistantId: string, errorId: string)
    requires forall k :: 0 <= k < |msgs| ==> msgs[k].id != assistantId
    ensures AfterReply(msgs, Streamed(chunks, false), assistantId, errorId)
            == msgs + [ChatMessage(assistantId, Assistant, Concat(chunks))]
  {
    var placeholder := msgs + [ChatMessage(assistantId, Assistant, "")];
    if chunks != [] {
      assert ReplaceContent(placeholder, assistantId, Concat(chunks)) == msgs + [ChatMessage(assistantId, Assistant, Concat(chunks))];
    }
  }

  /** Whatever the answer, the messages before it are kept, in place. */
  lemma ReplyKeepsHistory(msgs: seq<ChatMessage>, reply: Reply, assistantId: string, errorId: string)
    requires forall k :: 0 <= k < |msgs| ==> msgs[k].id != assistantId
    ensures var after := AfterReply(msgs, reply, assistantId, errorId);
            |after| > |msgs| && after[..|msgs|] == msgs
  {
  }

  // ------------------------------------------------------------- the page

  /** The page's state: the messages shown, the input box, the loading flag
      and the lead captured so far. */
  class ChatSession {
    var messages: seq<ChatMessage>
    var input: string
    var isLoading: bool
    var leadInfo: LeadInfo

    constructor ()
      ensures messages == [ChatMessage("welcome", Assistant, WelcomeText)]
      ensures input == "" && !isLoading && leadInfo == LeadInfo(None, None, None)
    {
      messages := [ChatMessage("welcome", Assistant, WelcomeText)];
      input := "";
      isLoading := false;
      leadInfo := LeadInfo(None, None, None);
    }

    /** `sendMessage` up to the request to the chat endpoint: the guard, the
        lead capture, the new user message and the request. The calls to the
        lead endpoint and the request to the chat endpoint are returned. */
    method Submit(content: string, userId: string) returns (saves: seq<LeadPatch>, request: Option<ChatRequest>)
      modifies this`messages, this`input, this`isLoading, this`leadInfo
      ensures Trim(content) == "" || old(isLoading) ==> unchanged(this) && saves == [] && request == None
      ensures Trim(content) != "" && !old(isLoading) ==>
        var e := LeadExtraction(content, LastAssistantContent(old(messages)));
        var userMessage := ChatMessage(userId, User, Trim(content));
        && messages == old(messages) + [userMessage]
        && input == "" && isLoading
        && leadInfo == MergedLead(old(leadInfo), e)
        && saves == LeadSaves(old(leadInfo), e)
        && request == Some(ChatRequest(Turns(old(messages) + [userMessage]), MergedLead(old(leadInfo), e)))
    {
      if Trim(content) == "" || isLoading {
        return [], None;
      }
      var userMessage := ChatMessage(userId, User, Trim(content));
      var history := messages;
      var e := LeadExtraction(content, LastAssistantContent(history));
      var updatedLeadInfo;
      updatedLeadInfo, saves := CaptureLead(leadInfo, e);
      leadInfo := updatedLeadInfo;
      messages := history + [userMessage];
      input := "";
      isLoading := true;
      request := Some(ChatRequest(Turns(history + [userMessage]), updatedLeadInfo));
    }

    /** The rest of `sendMessage`: the placeholder assistant message, the
        read loop, the error message, and `isLoading` cleared in `finally`. */
    method Receive(reply: Reply, assistantId: string, errorId: string)
      modifies this`messages, this`isLoading
      ensures messages == AfterReply(old(messages), reply, assistantId, errorId)
      ensures !isLoading
    {
      match reply {
        case Failed =>
          messages := messages + [ChatMessage(errorId, Assistant, ErrorText)];
        case NoReader =>
          messages := messages + [ChatMessage(assistantId, Assistant, "")];
        case Streamed(chunks, interrupted) =>
          messages := messages + [ChatMessage(assistantId, Assistant, "")];
          var assistantContent, out := StreamReply(messages, assistantId, chunks);
          messages := out;
          if interrupted {
            messages := messages + [ChatMessage(errorId, Assistant, ErrorText)];
          }
      }
      isLoading := false;
    }
  }
}
