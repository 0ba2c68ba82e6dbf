/** The Discord adapter: which request body `post` sends for a message, and
    the embed message `status_message_for` builds for a build status. */
module DiscordAdapter {
  import opened EnvExpansion
  import opened ConcourseEnv

  /** The body of the request `post` sends: the message itself as JSON, or a
      form with the message as its only field. */
  datatype Body = JsonBody(json: string) | FormBody(fields: seq<(string, string)>)

  const ContentField := "content"

  /** post(url, message), without the HTTP exchange: JSON exactly when the
      first character is "{" (an empty message has none, so it is a form). */
  function PostBody(message: string): (b: Body)
    ensures b.JsonBody? <==> |message| > 0 && message[0] == '{'
    ensures b.JsonBody? ==> b.json == message
    ensures b.FormBody? ==> b.fields == [(ContentField, message)]
  {
    if |message| > 0 && message[0] == '{' then JsonBody(message)
    else FormBody([(ContentField, message)])
  }

  /** Whatever the message, it is sent verbatim, in exactly one of the two forms. */
  lemma PostBodyCarriesMessage(message: string)
    ensures PostBody(message) == JsonBody(message) || PostBody(message) == FormBody([(ContentField, message)])
    ensures PostBody("") == FormBody([(ContentField, "")])
  {
  }

  /** Printable ASCII without quote or backslash: text `to_json` writes
      between quotes unchanged. */
  predicate JsonSafe(s: string) {
    forall i :: 0 <= i < |s| ==> ' ' <= s[i] <= '~' && s[i] != '"' && s[i] != '\\'
  }

  predicate IsUpper(c: char) { 'A' <= c <= 'Z' }
  predicate IsLower(c: char) { 'a' <= c <= 'z' }

  function Upcase(c: char): (u: char)
    ensures IsLower(c) ==> IsUpper(u) && u as int == c as int - 32
    ensures !IsLower(c) ==> u == c
  {
    if IsLower(c) then (c as int - 32) as char else c
  }

  function Downcase(c: char): (d: char)
    ensures IsUpper(c) ==> IsLower(d) && d as int == c as int + 32
    ensures !IsUpper(c) ==> d == c
  {
    if IsUpper(c) then (c as int + 32) as char else c
  }

  function Downcased(s: string): (r: string)
    ensures |r| == |s|
    ensures forall i :: 0 <= i < |s| ==> r[i] == Downcase(s[i])
  {
    if s == [] then [] else [Downcase(s[0])] + Downcased(s[1..])
  }

  /** String#capitalize on ASCII text. */
  function Capitalize(s: string): (r: string)
    ensures |r| == |s|
    ensures |s| > 0 ==> r[0] == Upcase(s[0])
    ensures forall i :: 1 <= i < |s| ==> r[i] == Downcase(s[i])
  {
    if s == [] then [] else [Upcase(s[0])] + Downcased(s[1..])
  }

  /** Capitalizing twice changes nothing more, leaves no lower-case letter
      first and no upper-case letter after it, and keeps text JSON-safe. */
  lemma CapitalizeProperties(s: string)
    ensures Capitalize(Capitalize(s)) == Capitalize(s)
    ensures |s| > 0 ==> !IsLower(Capitalize(s)[0])
    ensures forall i :: 1 <= i < |s| ==> !IsUpper(Capitalize(s)[i])
    ensures JsonSafe(s) ==> JsonSafe(Capitalize(s))
  {
    var c := Capitalize(s);
    var cc := Capitalize(c);
    assert |cc| == |c|;
    forall i | 0 <= i < |s|
      ensures cc[i] == c[i]
    {
      if i == 0 {
        assert Upcase(Upcase(s[0])) == Upcase(s[0]);
      } else {
        assert Downcase(Downcase(s[i])) == Downcase(s[i]);
      }
    }
  }

  /** The embed's title: pipeline, job and build name, as variable tokens. */
  const Title: string := Bare(BuildPipelineName) + ("/" + (Bare(BuildJobName) + ("/" + Bare(BuildName))))
  /** The embed's link, the token of the synthetic BUILD_URL. */
  const LinkToken: string := Braced(BuildUrl)

  const JsonHead: string := "{\"embeds\":[{\"title\":\""
  const JsonDescription: string := "\",\"description\":\"**Build "
  const JsonLink: string := "**\",\"url\":\""
  const JsonThumbnail: string := "\",\"thumbnail\":{\"url\":\"https://ci.nokogiri.org/public/images/favicon-"
  const JsonTail: string := ".png\"}}]}"

  /** The status-independent text before the capitalised status. */
  function Prefix(): string {
    JsonHead + Title + JsonDescription
  }

  /** The status-independent text between the capitalised and the raw status. */
  function Middle(): string {
    JsonLink + LinkToken + JsonThumbnail
  }

  /** status_message_for(status): the embed serialised by `to_json`, whose
      escaping is the identity on JSON-safe text. */
  function StatusMessageFor(status: string): string
    requires JsonSafe(status)
  {
    Prefix() + (Capitalize(status) + (Middle() + (status + JsonTail)))
  }

  /** The message starts with "{", so `post` sends it as a JSON body, verbatim. */
  lemma StatusMessageIsJson(status: string)
    requires JsonSafe(status)
    ensures StatusMessageFor(status)[0] == '{'
    ensures PostBody(StatusMessageFor(status)) == JsonBody(StatusMessageFor(status))
  {
    assert Prefix()[0] == JsonHead[0];
  }

  /** Expanding the message before posting, as the resource does, keeps the
      leading "{", so the expanded message is still sent as JSON. */
  lemma ExpandedStatusMessageIsJson(status: string, env: Env)
    requires JsonSafe(status)
    ensures var m := Expand(StatusMessageFor(status), env);
      PostBody(m) == JsonBody(m)
  {
    StatusMessageIsJson(status);
    ExpandKeepsFirst(StatusMessageFor(status), env);
  }

  /** The slices of a five-piece concatenation. */
  lemma Slices(p: string, c: string, m: string, s: string, t: string)
    ensures var w := p + (c + (m + (s + t)));
      var d := |p|;
      var e := d + |c| + |m|;
      && |w| == e + |s| + |t|
      && w[..d] == p
      && w[d..d + |c|] == c
      && w[d + |c|..e] == m
      && w[e..e + |s|] == s
      && w[e + |s|..] == t
  {
    var w := p + (c + (m + (s + t)));
    assert w[|p|..] == c + (m + (s + t));
    assert w[|p| + |c|..] == m + (s + t);
    assert w[|p| + |c| + |m|..] == s + t;
  }

  /** The status-independent parts of the message: the text before the
      description's status holds the fixed title, the text between the two
      statuses the fixed link, and the message ends the same for all. */
  lemma StatusMessageFixedParts(status: string)
    requires JsonSafe(status)
    ensures var m := StatusMessageFor(status);
      var d := |Prefix()|;
      var t := d + |status| + |Middle()|;
      && |m| == t + |status| + |JsonTail|
      && m[..d] == Prefix()
      && m[d + |status|..t] == Middle()
      && m[t + |status|..] == JsonTail
  {
    Slices(Prefix(), Capitalize(status), Middle(), status, JsonTail);
  }

  /** Where the status itself appears: capitalised in the description, raw
      in the thumbnail url. */
  lemma StatusMessageStatusParts(status: string)
    requires JsonSafe(status)
    ensures var m := StatusMessageFor(status);
      var d := |Prefix()|;
      var t := d + |status| + |Middle()|;
      && |m| == t + |status| + |JsonTail|
      && m[d..d + |status|] == Capitalize(status)
      && m[t..t + |status|] == status
  {
    Slices(Prefix(), Capitalize(status), Middle(), status, JsonTail);
  }

  /** Two five-piece concatenations with the same fixed pieces, whose second
      and fourth pieces have equal lengths, agree on the fourth piece. */
  lemma SlicesInjective(p: string, c1: string, c2: string, m: string, s1: string, s2: string, t: string)
    requires |c1| == |s1| && |c2| == |s2|
    requires p + (c1 + (m + (s1 + t))) == p + (c2 + (m + (s2 + t)))
    ensures s1 == s2
  {
    Slices(p, c1, m, s1, t);
    Slices(p, c2, m, s2, t);
  }

  /** Different statuses give different messages: the raw status is recoverable. */
  lemma StatusMessageInjective(a: string, b: string)
    requires JsonSafe(a) && JsonSafe(b)
    requires StatusMessageFor(a) == StatusMessageFor(b)
    ensures a == b
  {
    SlicesInjective(Prefix(), Capitalize(a), Capitalize(b), Middle(), a, b, JsonTail);
  }

  /** The title's tokens expand to "<pipeline>/<job>/<build name>" (an unset
      one stays as written), and the link token to the synthesised build url. */
  lemma TokensExpand(env: Env)
    ensures Expand(Title, env)
         == Replacement(env, Token(BuildPipelineName, false)) + ("/" +
            (Replacement(env, Token(BuildJobName, false)) + ("/" + Replacement(env, Token(BuildName, false)))))
    ensures Expand(LinkToken, WithBuildUrl(env)) == Expand(BuildUrlTemplate, env)
  {
    MetadataNames();
    ExpandThreeBare(BuildPipelineName, BuildJobName, BuildName, "/", env);
    ExpandLastBraced(BuildUrl, WithBuildUrl(env));
  }
}
