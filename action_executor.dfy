/**
 * Running one workflow action: dispatch on the action's type, the four
 * handlers, and the `{{path}}` template resolver used for e-mail subjects and
 * bodies. The mail transport and the HTTP client are the outside world: an
 * `ActionWorld` says what each of them answers.
 */
module ActionExecutor {
  import opened Wrappers
  import opened JsValue
  import opened WorkflowTypes

  // ---------------------------------------------------------------------------
  // Placeholders: the regular expression /\{\{([^}]+)\}\}/g
  // ---------------------------------------------------------------------------

  /** Two opening braces, at least one character other than `}`, two closing braces. */
  predicate IsPlaceholder(m: string) {
    && |m| >= 5 && m[0] == '{' && m[1] == '{' && m[|m| - 2] == '}' && m[|m| - 1] == '}'
    && forall k :: 2 <= k < |m| - 2 ==> m[k] != '}'
  }

  /** The match of the pattern that starts at `i`, given by its end (exclusive).
      There is at most one: the inner run stops at the first `}`. */
  function MatchAt(t: string, i: nat): (r: Option<nat>)
    ensures r.Some? ==> i < r.value <= |t| && IsPlaceholder(t[i..r.value])
  {
    if i + 2 <= |t| && t[i] == '{' && t[i + 1] == '{' then
      match IndexOf(t, '}', i + 2)
      case Some(j) => if j > i + 2 && j + 1 < |t| && t[j + 1] == '}' then Some(j + 2) else None
      case None => None
    else None
  }

  /** Every placeholder text starting at `i` is the match found there. */
  lemma MatchAtComplete(t: string, i: nat, e: nat)
    requires i < e <= |t| && IsPlaceholder(t[i..e])
    ensures MatchAt(t, i) == Some(e)
  {
    var m := t[i..e];
    assert t[e - 2] == m[|m| - 2] == '}';
    assert t[e - 1] == m[|m| - 1] == '}';
    assert t[i] == m[0] && t[i + 1] == m[1];
    forall k | i + 2 <= k < e - 2 ensures t[k] != '}' {
      assert t[k] == m[k - i];
    }
    var j := IndexOf(t, '}', i + 2);
    assert j == Some(e - 2);
  }

  /** The span of one match in the template. */
  datatype Span = Span(start: nat, end: nat)

  /** The global scan from `from`: the leftmost match, then the scan after it. */
  function Scan(t: string, from: nat): (ps: seq<Span>)
    ensures forall k :: 0 <= k < |ps| ==>
              from <= ps[k].start < ps[k].end <= |t| && MatchAt(t, ps[k].start) == Some(ps[k].end)
    ensures forall k :: 0 <= k < |ps| - 1 ==> ps[k].end <= ps[k + 1].start
    decreases |t| - from
  {
    if from >= |t| then []
    else match MatchAt(t, from)
      case Some(e) => [Span(from, e)] + Scan(t, e)
      case None => Scan(t, from + 1)
  }

  /** No match starts in [lo, hi). */
  predicate NoMatchIn(t: string, lo: nat, hi: nat) {
    forall q :: lo <= q < hi ==> MatchAt(t, q).None?
  }

  /** The scan begins at the leftmost match: none starts before its first span,
      and none at all when it finds nothing. */
  lemma {:induction false} ScanHead(t: string, from: nat)
    ensures Scan(t, from) == [] ==> NoMatchIn(t, from, |t|)
    ensures Scan(t, from) != [] ==> NoMatchIn(t, from, Scan(t, from)[0].start)
    decreases |t| - from
  {
    if from < |t| && MatchAt(t, from).None? {
      ScanHead(t, from + 1);
    }
  }

  /** After each span the scan starts over at that span's end. */
  lemma {:induction false} ScanResumes(t: string, from: nat, k: nat)
    requires k < |Scan(t, from)|
    ensures Scan(t, Scan(t, from)[k].end) == Scan(t, from)[k + 1..]
    decreases |t| - from
  {
    var ps := Scan(t, from);
    match MatchAt(t, from)
    case Some(e) =>
      if k > 0 {
        ScanResumes(t, e, k - 1);
        assert ps[k] == Scan(t, e)[k - 1];
        assert ps[k + 1..] == Scan(t, e)[k..];
      }
    case None =>
      ScanResumes(t, from + 1, k);
  }

  /** No match starts between span `k` and the next one (or the end of the
      template after the last span). */
  lemma {:induction false} ScanGap(t: string, from: nat, k: nat)
    requires k < |Scan(t, from)|
    ensures var ps := Scan(t, from);
            NoMatchIn(t, ps[k].end, if k + 1 < |ps| then ps[k + 1].start else |t|)
  {
    var ps := Scan(t, from);
    ScanResumes(t, from, k);
    ScanHead(t, ps[k].end);
    if k + 1 < |ps| {
      assert Scan(t, ps[k].end)[0] == ps[k + 1];
    } else {
      assert Scan(t, ps[k].end) == [];
    }
  }

  /** The texts `match[0]` of all matches, in order. */
  function MatchTexts(t: string): (ms: seq<string>)
    ensures forall k :: 0 <= k < |ms| ==> IsPlaceholder(ms[k])
  {
    var ps := Scan(t, 0);
    seq(|ps|, k requires 0 <= k < |ps| => t[ps[k].start..ps[k].end])
  }

  /** Some substring of `t` has the placeholder shape. */
  predicate HasPlaceholder(t: string) {
    exists i: nat, e: nat :: i < e <= |t| && IsPlaceholder(t[i..e])
  }

  /** The scan finds a match exactly when the template contains a placeholder. */
  lemma {:induction false} MatchesIffPlaceholder(t: string)
    ensures MatchTexts(t) != [] <==> HasPlaceholder(t)
  {
    var ps := Scan(t, 0);
    if ps != [] {
      assert IsPlaceholder(t[ps[0].start..ps[0].end]);
    }
    if HasPlaceholder(t) {
      var i: nat, e: nat :| i < e <= |t| && IsPlaceholder(t[i..e]);
      MatchAtComplete(t, i, e);
      ScanHead(t, 0);
    }
  }

  // ---------------------------------------------------------------------------
  // Literal first-occurrence replacement
  // ---------------------------------------------------------------------------

  /** The first index at or after `i` where `pat` occurs in `s`. */
  function FindFrom(s: string, pat: string, i: nat): (r: Option<nat>)
    ensures r.Some? ==> i <= r.value && OccursAt(s, pat, r.value)
    ensures r.Some? ==> forall q: nat :: i <= q < r.value ==> !OccursAt(s, pat, q)
    ensures r.None? ==> forall q: nat :: i <= q ==> !OccursAt(s, pat, q)
    decreases |s| - i
  {
    if i + |pat| > |s| then None
    else if OccursAt(s, pat, i) then Some(i)
    else FindFrom(s, pat, i + 1)
  }

  function FirstOccurrence(s: string, pat: string): (r: Option<nat>)
    ensures r.Some? ==> OccursAt(s, pat, r.value) && forall q: nat :: q < r.value ==> !OccursAt(s, pat, q)
    ensures r.None? ==> forall q: nat :: !OccursAt(s, pat, q)
  {
    FindFrom(s, pat, 0)
  }

  /** `s.replace(pat, rep)` with a string pattern, taking the replacement literally. */
  function ReplaceFirst(s: string, pat: string, rep: string): (r: string)
    ensures FirstOccurrence(s, pat).None? ==> r == s
  {
    match FirstOccurrence(s, pat)
    case Some(i) => s[..i] + rep + s[i + |pat|..]
    case None => s
  }

  // ---------------------------------------------------------------------------
  // replaceTemplateVariables
  // ---------------------------------------------------------------------------

  /** What a placeholder is replaced with: `String(value || '')`, where the value
      is the dot-path lookup of the trimmed text between the braces. */
  function Shown(data: Value, m: string): (r: string)
    ensures !Truthy(GetPath(data, Trim(Inner(m)))) ==> r == ""
    ensures Truthy(GetPath(data, Trim(Inner(m)))) ==> r == ToStr(GetPath(data, Trim(Inner(m))))
  {
    ToStr(Or(GetPath(data, Trim(Inner(m))), Str("")))
  }

  /** The text between the two pairs of braces of a match. */
  function Inner(m: string): string {
    if |m| >= 4 then m[2..|m| - 2] else ""
  }

  /** One `result.replace(pattern, replacement)`. */
  datatype Edit = Edit(pattern: string, replacement: string)

  /** The edits made in order, each on the result of the ones before. */
  function ApplyEdits(s: string, es: seq<Edit>): (r: string)
    ensures es == [] ==> r == s
  {
    if es == [] then s
    else ReplaceFirst(ApplyEdits(s, es[..|es| - 1]), es[|es| - 1].pattern, es[|es| - 1].replacement)
  }

  /** The edit each match asks for: its own text, replaced by the value it names. */
  function Edits(ms: seq<string>, show: string -> string): (es: seq<Edit>)
    ensures |es| == |ms|
    ensures forall k :: 0 <= k < |ms| ==> es[k] == Edit(ms[k], show(ms[k]))
  {
    seq(|ms|, k requires 0 <= k < |ms| => Edit(ms[k], show(ms[k])))
  }

  /** The replacement for each match text, looked up in `data`. */
  function Shows(data: Value): string -> string {
    m => Shown(data, m)
  }

  /** The string `replaceTemplateVariables(template, data)` returns. */
  function Substituted(template: string, data: Value): string {
    ApplyEdits(template, Edits(MatchTexts(template), Shows(data)))
  }

  /** Walks the matches of the template, replacing the first occurrence of each
      match's text in the running result. */
  method ReplaceTemplateVariables(template: string, data: Value) returns (result: string)
    ensures result == Substituted(template, data)
  {
    result := template;
    var matches := MatchTexts(template);
    ghost var edits := Edits(matches, Shows(data));
    for k := 0 to |matches|
      invariant result == ApplyEdits(template, edits[..k])
    {
      var m := matches[k];
      var shown := Lookup(data, m);
      ApplyEditsStep(template, edits, k);
      result := ReplaceFirst(result, m, shown);
    }
    assert edits[..|matches|] == edits;
  }

  /** The replacement for one match: the trimmed text between the braces,
      looked up as a dot path, shown as `String(value || '')`. */
  method Lookup(data: Value, m: string) returns (shown: string)
    requires IsPlaceholder(m)
    ensures shown == Shown(data, m)
  {
    var path := Trim(m[2..|m| - 2]);
    var value := GetPath(data, path);
    shown := ToStr(Or(value, Str("")));
    ShownOf(data, m);
  }

  lemma ShownOf(data: Value, m: string)
    requires |m| >= 4
    ensures Shown(data, m) == ToStr(Or(GetPath(data, Trim(m[2..|m| - 2])), Str("")))
  {
  }

  /** One more edit is one more replacement. */
  lemma ApplyEditsStep(s: string, es: seq<Edit>, k: nat)
    requires k < |es|
    ensures ApplyEdits(s, es[..k + 1]) == ReplaceFirst(ApplyEdits(s, es[..k]), es[k].pattern, es[k].replacement)
  {
    assert es[..k + 1][..k] == es[..k];
  }

  /** A template without any `{{...}}` placeholder comes back unchanged. */
  lemma NoPlaceholderUnchanged(template: string, data: Value)
    requires !HasPlaceholder(template)
    ensures Substituted(template, data) == template
  {
    MatchesIffPlaceholder(template);
  }

  /** The first match's text occurs nowhere before the match itself, so the
      first replacement lands on it. */
  lemma {:induction false} FirstMatchIsFirstOccurrence(t: string)
    requires Scan(t, 0) != []
    ensures var p := Scan(t, 0)[0];
            FirstOccurrence(t, t[p.start..p.end]) == Some(p.start)
  {
    var p := Scan(t, 0)[0];
    var m := t[p.start..p.end];
    assert OccursAt(t, m, p.start);
    ScanHead(t, 0);
    forall q: nat | q < p.start ensures !OccursAt(t, m, q) {
      OccurrenceIsMatch(t, m, q);
    }
  }

  /** An occurrence of a placeholder's text is a match at that position. */
  lemma OccurrenceIsMatch(t: string, m: string, q: nat)
    requires IsPlaceholder(m)
    ensures OccursAt(t, m, q) ==> MatchAt(t, q) == Some(q + |m|)
  {
    if OccursAt(t, m, q) {
      assert t[q..q + |m|] == m;
      MatchAtComplete(t, q, q + |m|);
    }
  }

  /** A template with exactly one placeholder gets the looked-up value in its place. */
  lemma {:induction false} SinglePlaceholder(template: string, data: Value)
    requires |Scan(template, 0)| == 1
    ensures var p := Scan(template, 0)[0];
            Substituted(template, data)
              == template[..p.start] + Shown(data, template[p.start..p.end]) + template[p.end..]
  {
    var p := Scan(template, 0)[0];
    var m := template[p.start..p.end];
    OneEdit(template, data);
    FirstMatchReplaced(template, Shown(data, m));
  }

  /** Replacing the first match's text replaces the first match. */
  lemma {:induction false} FirstMatchReplaced(template: string, rep: string)
    requires Scan(template, 0) != []
    ensures var p := Scan(template, 0)[0];
            ReplaceFirst(template, template[p.start..p.end], rep) == template[..p.start] + rep + template[p.end..]
  {
    var p := Scan(template, 0)[0];
    var m := template[p.start..p.end];
    FirstMatchIsFirstOccurrence(template);
    ReplaceAtFirst(template, m, rep, p.start);
    assert p.start + |m| == p.end;
  }

  /** With a single match, the substitution is one replacement. */
  lemma {:induction false} OneEdit(template: string, data: Value)
    requires |Scan(template, 0)| == 1
    ensures var p := Scan(template, 0)[0];
            var m := template[p.start..p.end];
            Substituted(template, data) == ReplaceFirst(template, m, Shown(data, m))
  {
    var p := Scan(template, 0)[0];
    var m := template[p.start..p.end];
    assert MatchTexts(template) == [m];
    var es := Edits([m], Shows(data));
    assert es == [Edit(m, Shown(data, m))];
    assert es[..0] == [];
  }

  /** The replacement lands at the first occurrence. */
  lemma ReplaceAtFirst(s: string, pat: string, rep: string, i: nat)
    requires FirstOccurrence(s, pat) == Some(i)
    ensures ReplaceFirst(s, pat, rep) == s[..i] + rep + s[i + |pat|..]
  {
  }

  /** A pattern at the very start of the string is the one replaced. */
  lemma ReplaceAtStart(s: string, pat: string, rep: string)
    requires pat <= s
    ensures ReplaceFirst(s, pat, rep) == rep + s[|pat|..]
  {
    assert OccursAt(s, pat, 0);
  }

  /** A key that can stand alone between the braces of a placeholder and be
      looked up as a single property. */
  predicate PlainKey(key: string) {
    key != [] && '.' !in key && '}' !in key && !IsWhitespace(key[0]) && !IsWhitespace(key[|key| - 1])
  }

  function PlaceholderFor(key: string): string {
    "{{" + key + "}}"
  }

  /** A placeholder naming one plain key shows that key's value. */
  lemma ShownKey(data: Value, key: string)
    requires PlainKey(key)
    ensures IsPlaceholder(PlaceholderFor(key))
    ensures Shown(data, PlaceholderFor(key)) == ToStr(Or(Get(data, key), Str("")))
  {
    var m := PlaceholderFor(key);
    assert Inner(m) == key;
    forall k | 2 <= k < |m| - 2 ensures m[k] != '}' {
      assert m[k] == key[k - 2];
    }
    TrimUnchanged(key);
    SingleKeyPath(data, key);
  }

  /** The template `{{a}} {{b}}` has exactly its two placeholders as matches. */
  lemma TwoPlaceholderMatches(a: string, b: string)
    requires PlainKey(a) && PlainKey(b)
    ensures MatchTexts(PlaceholderFor(a) + " " + PlaceholderFor(b)) == [PlaceholderFor(a), PlaceholderFor(b)]
  {
    ShownKey(Null, a);
    ShownKey(Null, b);
    SpacedMatchTexts(PlaceholderFor(a), PlaceholderFor(b));
  }

  lemma SpacedMatchTexts(pa: string, pb: string)
    requires IsPlaceholder(pa) && IsPlaceholder(pb)
    ensures MatchTexts(pa + " " + pb) == [pa, pb]
  {
    var t := pa + " " + pb;
    SpacedMatches(pa, pb);
    SliceOfSpaced(pa, pb);
    var ms := MatchTexts(t);
    assert |ms| == 2;
    assert ms[0] == t[0..|pa|];
    assert ms[1] == t[|pa| + 1..|t|];
  }

  /** Two placeholders separated by a space are scanned as two matches. */
  lemma SpacedMatches(pa: string, pb: string)
    requires IsPlaceholder(pa) && IsPlaceholder(pb)
    ensures var t := pa + " " + pb;
            Scan(t, 0) == [Span(0, |pa|), Span(|pa| + 1, |t|)]
  {
    var t := pa + " " + pb;
    var e := |pa|;
    SliceOfSpaced(pa, pb);
    MatchAtComplete(t, 0, e);
    MatchAtComplete(t, e + 1, |t|);
    ScanTake(t, 0, e);
    ScanSkip(t, e);
    ScanTake(t, e + 1, |t|);
    assert Scan(t, |t|) == [];
    var second := [Span(e + 1, |t|)];
    assert Scan(t, e + 1) == second + [];
    assert Scan(t, e) == second;
    assert Scan(t, 0) == [Span(0, e)] + second;
    assert [Span(0, e)] + second == [Span(0, e), Span(e + 1, |t|)];
    assert Scan(t, 0) == [Span(0, e), Span(e + 1, |t|)];
  }

  lemma SliceOfSpaced(pa: string, pb: string)
    ensures var t := pa + " " + pb;
            t[0..|pa|] == pa && t[|pa|] == ' ' && t[|pa| + 1..|t|] == pb
  {
  }

  /** A match at `from` is the first span of the scan from there. */
  lemma ScanTake(t: string, from: nat, e: nat)
    requires from < |t| && MatchAt(t, from) == Some(e)
    ensures Scan(t, from) == [Span(from, e)] + Scan(t, e)
  {
  }

  /** A space starts no match, so the scan moves past it. */
  lemma ScanSkip(t: string, from: nat)
    requires from < |t| && t[from] == ' '
    ensures Scan(t, from) == Scan(t, from + 1)
  {
  }

  /** When a looked-up value contains the text of a later placeholder, the later
      replacement lands inside that value rather than at the placeholder: with
      `a` holding the text `{{b}}`, the template `{{a}} {{b}}` becomes
      `<b's value> {{b}}`. */
  lemma ValueShadowsLaterPlaceholder(data: Value, a: string, b: string, x: string)
    requires PlainKey(a) && PlainKey(b) && x != ""
    requires Get(data, a) == Str(PlaceholderFor(b)) && Get(data, b) == Str(x)
    ensures Substituted(PlaceholderFor(a) + " " + PlaceholderFor(b), data) == x + " " + PlaceholderFor(b)
  {
    var pa, pb := PlaceholderFor(a), PlaceholderFor(b);
    TwoPlaceholderMatches(a, b);
    ShownKey(data, a);
    ShownKey(data, b);
    assert Shown(data, pa) == pb;
    assert Shown(data, pb) == x;
    TwoEdits([pa, pb], Shows(data));
    ShadowedReplacement(pa + " " + pb, pa, pb, x);
  }

  /** The edits asked for by two matches. */
  lemma TwoEdits(ms: seq<string>, show: string -> string)
    requires |ms| == 2
    ensures Edits(ms, show) == [Edit(ms[0], show(ms[0])), Edit(ms[1], show(ms[1]))]
  {
  }

  lemma {:induction false} ShadowedReplacement(t: string, pa: string, pb: string, x: string)
    requires t == pa + " " + pb
    ensures ApplyEdits(t, [Edit(pa, pb), Edit(pb, x)]) == x + " " + pb
  {
    var es := [Edit(pa, pb), Edit(pb, x)];
    assert es[..1] == [Edit(pa, pb)] && es[..1][..0] == [];
    ReplaceAtStart(t, pa, pb);
    var r1 := pb + t[|pa|..];
    assert t[|pa|..] == " " + pb;
    ReplaceAtStart(r1, pb, x);
    assert r1[|pb|..] == " " + pb;
  }

  // ---------------------------------------------------------------------------
  // The outside world
  // ---------------------------------------------------------------------------

  datatype HttpRequest = HttpRequest(verb: Value, url: Value, data: Value, headers: Value, timeout: nat)

  datatype HttpResponse = HttpResponse(status: int, data: Value)

  /** What the mail transport and the HTTP client answer: a mail is sent (None)
      or fails with a message; a request gets a response or fails with a message. */
  datatype ActionWorld = ActionWorld(
    sendEmail: (Value, string, string) -> Option<string>,
    http: HttpRequest -> Result<HttpResponse, string>)

  /** The error a non-string template raises at `template.matchAll(...)`. */
  const NotATemplate := "template.matchAll is not a function"

  // ---------------------------------------------------------------------------
  // E-mail
  // ---------------------------------------------------------------------------

  /** The recipient: the literal `{{user.email}}` stands for the organization
      owner's address (or '' without an owner); anything else is used as is. */
  function Recipient(to: Value, ownerEmail: Option<string>): (r: Value)
    ensures to == Str("{{user.email}}") ==> r == Str(ownerEmail.GetOr(""))
    ensures to != Str("{{user.email}}") ==> r == to
  {
    if to == Str("{{user.email}}") then Str(ownerEmail.GetOr("")) else to
  }

  /** The value the e-mail action returns once the mail is handed over. */
  function EmailSent(recipient: Value, subject: string): Value {
    Obj(map["success" := Bool(true), "recipient" := recipient, "subject" := Str(subject)])
  }

  /** The result of the e-mail action: subject (default `Workflow Alert`) and body
      (default empty) are templates resolved against the trigger data; a
      template that is not a string raises before anything is sent. */
  function EmailOutcome(config: Value, data: Value, ownerEmail: Option<string>, world: ActionWorld): Result<Value, string>
  {
    SendOutcome(Recipient(Get(config, "to"), ownerEmail), Or(Get(config, "subject"), Str("Workflow Alert")),
                Or(Get(config, "body"), Str("")), data, world)
  }

  /** Sending with the given recipient and subject and body templates. */
  function SendOutcome(recipient: Value, subject: Value, body: Value, data: Value, world: ActionWorld): Result<Value, string>
  {
    if !subject.Str? || !body.Str? then Failure(NotATemplate)
    else
      var s := Substituted(subject.s, data);
      var b := Substituted(body.s, data);
      match world.sendEmail(recipient, s, b)
      case Some(err) => Failure(err)
      case None => Success(EmailSent(recipient, s))
  }

  /** The e-mail action succeeds exactly when both templates are strings and
      the transport accepts the mail, which goes to the resolved recipient with
      the resolved subject and body; a subject that is set but not a string
      fails before anything is sent. */
  lemma EmailSentOnlyWhenAccepted(config: Value, data: Value, ownerEmail: Option<string>, world: ActionWorld)
    ensures var r := EmailOutcome(config, data, ownerEmail, world);
            var subject := Or(Get(config, "subject"), Str("Workflow Alert"));
            var body := Or(Get(config, "body"), Str(""));
            && (r.Success? <==>
                  subject.Str? && body.Str?
                  && world.sendEmail(Recipient(Get(config, "to"), ownerEmail),
                                     Substituted(subject.s, data), Substituted(body.s, data)).None?)
            && (r.Success? ==> r.value == EmailSent(Recipient(Get(config, "to"), ownerEmail), Substituted(subject.s, data)))
            && (Truthy(Get(config, "subject")) && !Get(config, "subject").Str? ==> r == Failure(NotATemplate))
            && (!Truthy(Get(config, "subject")) && r.Success? ==> r.value == EmailSent(Recipient(Get(config, "to"), ownerEmail), Substituted("Workflow Alert", data)))
  {
  }

  /** `executeEmailAction`. */
  method ExecuteEmailAction(config: Value, data: Value, ownerEmail: Option<string>, world: ActionWorld)
    returns (r: Result<Value, string>)
    ensures r == EmailOutcome(config, data, ownerEmail, world)
  {
    r := Send(Get(config, "to"), Get(config, "subject"), Get(config, "body"), data, ownerEmail, world);
  }

  /** The body of `executeEmailAction` on the configured `to`, `subject` and `body`. */
  method Send(to: Value, subjectSetting: Value, bodySetting: Value, data: Value, ownerEmail: Option<string>,
              world: ActionWorld) returns (r: Result<Value, string>)
    ensures r == SendOutcome(Recipient(to, ownerEmail), Or(subjectSetting, Str("Workflow Alert")), Or(bodySetting, Str("")), data, world)
  {
    var recipient := to;
    if recipient == Str("{{user.email}}") {
      recipient := Str(ownerEmail.GetOr(""));
    }
    var subjectTemplate := Or(subjectSetting, Str("Workflow Alert"));
    if !subjectTemplate.Str? {
      return Failure(NotATemplate);
    }
    var subject := ReplaceTemplateVariables(subjectTemplate.s, data);
    var bodyTemplate := Or(bodySetting, Str(""));
    if !bodyTemplate.Str? {
      return Failure(NotATemplate);
    }
    var body := ReplaceTemplateVariables(bodyTemplate.s, data);
    var sent := world.sendEmail(recipient, subject, body);
    if sent.Some? {
      return Failure(sent.value);
    }
    r := Success(EmailSent(recipient, subject));
  }

  // ---------------------------------------------------------------------------
  // Webhook, notification, log
  // ---------------------------------------------------------------------------

  /** The request the webhook action sends: method POST, the trigger data as
      body, no headers unless configured, and a 10 second timeout. */
  function WebhookRequest(config: Value, data: Value): (req: HttpRequest)
    ensures !Truthy(Get(config, "method")) ==> req.verb == Str("POST")
    ensures Truthy(Get(config, "method")) ==> req.verb == Get(config, "method")
    ensures !Truthy(Get(config, "payload")) ==> req.data == data
    ensures Truthy(Get(config, "payload")) ==> req.data == Get(config, "payload")
    ensures !Truthy(Get(config, "headers")) ==> req.headers == Obj(map[])
    ensures Truthy(Get(config, "headers")) ==> req.headers == Get(config, "headers")
    ensures req.url == Get(config, "url") && req.timeout == 10000
  {
    HttpRequest(Or(Get(config, "method"), Str("POST")), Get(config, "url"),
                Or(Get(config, "payload"), data), Or(Get(config, "headers"), Obj(map[])), 10000)
  }

  const WebhookFailedPrefix := "Webhook failed: "

  /** The result of the webhook action: any failure comes back as `Webhook failed: <message>`. */
  function WebhookOutcome(config: Value, data: Value, world: ActionWorld): (r: Result<Value, string>)
    ensures r.Failure? <==> world.http(WebhookRequest(config, data)).Failure?
    ensures r.Failure? ==> r.error == WebhookFailedPrefix + world.http(WebhookRequest(config, data)).error
  {
    match world.http(WebhookRequest(config, data))
    case Failure(msg) => Failure(WebhookFailedPrefix + msg)
    case Success(resp) =>
      Success(Obj(map["success" := Bool(true), "statusCode" := Num(resp.status as real), "data" := resp.data]))
  }

  /** The notification action only reports the configured message. */
  function NotificationOutcome(config: Value): Value {
    Obj(map["success" := Bool(true), "message" := Get(config, "message")])
  }

  /** The log action only reports that it logged. */
  function LogOutcome(): Value {
    Obj(map["success" := Bool(true), "logged" := Bool(true)])
  }

  // ---------------------------------------------------------------------------
  // Dispatch
  // ---------------------------------------------------------------------------

  const UnknownActionPrefix := "Unknown action type: "

  /** The result of `ActionExecutor.execute` for an action of type `kind`. */
  function ActionOutcome(kind: string, config: Value, data: Value, ownerEmail: Option<string>, world: ActionWorld)
    : Result<Value, string>
  {
    match ParseActionType(kind)
    case None => Failure(UnknownActionPrefix + kind)
    case Some(t) => KindOutcome(t, config, data, ownerEmail, world)
  }

  /** The outcome of an action whose type is one of the enumeration. */
  function KindOutcome(kind: ActionType, config: Value, data: Value, ownerEmail: Option<string>, world: ActionWorld)
    : Result<Value, string>
  {
    match kind
    case Email => EmailOutcome(config, data, ownerEmail, world)
    case WebhookAction => WebhookOutcome(config, data, world)
    case Notification => Success(NotificationOutcome(config))
    case Log => Success(LogOutcome())
  }

  /** A type outside the enumeration fails with `Unknown action type: <type>`. */
  lemma UnknownTypeFails(kind: string, config: Value, data: Value, ownerEmail: Option<string>, world: ActionWorld)
    requires kind !in ActionTypeNames
    ensures ActionOutcome(kind, config, data, ownerEmail, world) == Failure(UnknownActionPrefix + kind)
  {
  }

  /** A stored action's type is always one of the enumeration, so it never reaches the unknown-type branch. */
  lemma StoredKindOutcome(kind: ActionType, config: Value, data: Value, ownerEmail: Option<string>, world: ActionWorld)
    ensures ActionOutcome(kind.Name(), config, data, ownerEmail, world) == KindOutcome(kind, config, data, ownerEmail, world)
  {
    assert ParseActionType(kind.Name()) == Some(kind);
  }

  /** `ActionExecutor.execute`. */
  method Execute(kind: string, config: Value, data: Value, ownerEmail: Option<string>, world: ActionWorld)
    returns (r: Result<Value, string>)
    ensures r == ActionOutcome(kind, config, data, ownerEmail, world)
  {
    match ParseActionType(kind)
    case Some(t) =>
      r := ExecuteKind(t, config, data, ownerEmail, world);
    case None =>
      r := Failure(UnknownActionPrefix + kind);
  }

  /** The branch of the switch taken by each action type. */
  method ExecuteKind(kind: ActionType, config: Value, data: Value, ownerEmail: Option<string>, world: ActionWorld)
    returns (r: Result<Value, string>)
    ensures r == KindOutcome(kind, config, data, ownerEmail, world)
  {
    match kind
    case Email =>
      r := ExecuteEmailAction(config, data, ownerEmail, world);
    case WebhookAction =>
      r := WebhookOutcome(config, data, world);
    case Notification =>
      r := Success(NotificationOutcome(config));
    case Log =>
      r := Success(LogOutcome());
  }
}
