/**
  * TranslationService: which Google Cloud project the translation requests are
  * billed to, and the `translate` call with its blank-input guard.
  */
module Translation {
  import opened Common
  import opened Text

  /** The domain part of every service-account email. */
  const IAM_SUFFIX := ".iam.gserviceaccount.com"
  /** Used when neither the credentials nor the environment name a project. */
  const FALLBACK_PROJECT_ID := "your-gcp-project-id-fallback"

  /**
    * The loaded credentials, reduced to what project resolution reads. Only
    * service-account credentials expose a client email.
    */
  datatype Credentials =
    | ServiceAccountCredentials(quotaProjectId: Option<string>, clientEmail: Option<string>)
    | OtherCredentials(quotaProjectId: Option<string>)

  /** Java's `s == null || s.isEmpty()`. */
  predicate Unset(s: Option<string>) {
    s.None? || s.value == ""
  }

  /**
    * The project id carried by a service-account email
    * `name@project-id.iam.gserviceaccount.com`: the text strictly between the
    * first '@' and the first occurrence of the suffix, provided the suffix
    * starts after that '@'.
    */
  function ProjectFromEmail(email: Option<string>): (r: Option<string>)
    ensures r.Some? ==> email.Some? && Contains(email.value, "@") && Contains(email.value, IAM_SUFFIX)
    ensures r.Some? ==> IndexOf(email.value, "@") < IndexOf(email.value, IAM_SUFFIX)
    ensures r.Some? ==> r.value == email.value[IndexOf(email.value, "@") + 1..IndexOf(email.value, IAM_SUFFIX)]
    ensures email.Some? && IndexOf(email.value, IAM_SUFFIX) <= IndexOf(email.value, "@") ==> r.None?
    ensures (email.Some? && Contains(email.value, "@") && Contains(email.value, IAM_SUFFIX)
             && IndexOf(email.value, "@") < IndexOf(email.value, IAM_SUFFIX)) ==>
      r == Some(email.value[IndexOf(email.value, "@") + 1..IndexOf(email.value, IAM_SUFFIX)])
  {
    if email.Some? && Contains(email.value, "@") && Contains(email.value, IAM_SUFFIX) then
      var e := email.value;
      var at := IndexOf(e, "@");
      var dot := IndexOf(e, IAM_SUFFIX);
      if at != -1 && dot != -1 && dot > at then Some(e[at + 1..dot]) else None
    else None
  }

  /**
    * An extracted id is exactly what lies between the first '@' and the
    * first suffix: the email is the name, '@', the id, the suffix, and
    * whatever followed it.
    */
  lemma ProjectFromEmailSplits(email: string)
    requires ProjectFromEmail(Some(email)).Some?
    ensures var at, dot := IndexOf(email, "@"), IndexOf(email, IAM_SUFFIX);
      email == email[..at] + "@" + ProjectFromEmail(Some(email)).value + IAM_SUFFIX + email[dot + |IAM_SUFFIX|..]
  {
    var at, dot := IndexOf(email, "@"), IndexOf(email, IAM_SUFFIX);
    var end := dot + |IAM_SUFFIX|;
    assert OccursAt(email, "@", at) && OccursAt(email, IAM_SUFFIX, dot);
    assert 0 <= at < dot && end <= |email|;
    assert email[..dot] == email[..at] + "@" + email[at + 1..dot];
    assert email[..end] == email[..dot] + IAM_SUFFIX;
    assert email == email[..end] + email[end..];
  }

  /** The value used when the credentials yield no project: GOOGLE_CLOUD_PROJECT if set, else the literal default. */
  function EnvironmentProject(env: Option<string>): string {
    env.GetOr(FALLBACK_PROJECT_ID)
  }

  /**
    * The project the service settles on: the quota project if set, otherwise
    * the one parsed from a service account's email, otherwise the environment
    * value or the literal default. An empty id at any step counts as unset.
    */
  function ResolveProjectId(credentials: Credentials, env: Option<string>): string {
    if !Unset(credentials.quotaProjectId) then credentials.quotaProjectId.value
    else
      var email := if credentials.ServiceAccountCredentials? then credentials.clientEmail else None;
      var parsed := ProjectFromEmail(email);
      if !Unset(parsed) then parsed.value else EnvironmentProject(env)
  }

  /** A set quota project decides the id; the kind of credentials and the email play no part. */
  lemma QuotaProjectWins(q: string, email: Option<string>, env: Option<string>)
    requires q != ""
    ensures ResolveProjectId(ServiceAccountCredentials(Some(q), email), env) == q
    ensures ResolveProjectId(OtherCredentials(Some(q)), env) == q
  {
  }

  /** Credentials without a client email go straight to the environment fallback. */
  lemma OtherCredentialsSkipEmail(q: Option<string>, env: Option<string>)
    requires Unset(q)
    ensures ResolveProjectId(OtherCredentials(q), env) == EnvironmentProject(env)
    ensures ResolveProjectId(OtherCredentials(q), env) == ResolveProjectId(ServiceAccountCredentials(q, None), env)
  {
  }

  /**
    * Without a quota project, a service account's email decides the id when
    * it yields a non-empty project; an empty extracted project falls through
    * to the environment fallback.
    */
  lemma EmailThenEnvironment(q: Option<string>, email: Option<string>, env: Option<string>)
    requires Unset(q)
    ensures ProjectFromEmail(email).Some? && ProjectFromEmail(email).value != "" ==>
      ResolveProjectId(ServiceAccountCredentials(q, email), env) == ProjectFromEmail(email).value
    ensures Unset(ProjectFromEmail(email)) ==>
      ResolveProjectId(ServiceAccountCredentials(q, email), env) == EnvironmentProject(env)
  {
  }

  /**
    * The id is never empty, except when GOOGLE_CLOUD_PROJECT is set to the
    * empty string and nothing earlier in the chain applied.
    */
  lemma ResolvedIdNonEmpty(credentials: Credentials, env: Option<string>)
    ensures ResolveProjectId(credentials, env) == "" ==> env == Some("")
  {
  }

  /**
    * The documented email shape round-trips: for an account name without '@'
    * or '.', and a project id without '.', the id comes back unchanged.
    */
  lemma {:induction false} ProjectFromEmailRoundTrip(name: string, project: string)
    requires forall k :: 0 <= k < |name| ==> name[k] != '@' && name[k] != '.'
    requires forall k :: 0 <= k < |project| ==> project[k] != '.'
    ensures ProjectFromEmail(Some(name + "@" + project + IAM_SUFFIX)) == Some(project)
  {
    var e := name + "@" + project + IAM_SUFFIX;
    var at := |name|;
    var dot := |name| + 1 + |project|;
    assert OccursAt(e, "@", at) by { assert e[at..at + 1] == "@"; }
    forall i | 0 <= i < at ensures !OccursAt(e, "@", i) {
      assert e[i] == name[i];
    }
    assert e[dot..dot + |IAM_SUFFIX|] == IAM_SUFFIX;
    assert OccursAt(e, IAM_SUFFIX, dot);
    forall i | 0 <= i < dot ensures !OccursAt(e, IAM_SUFFIX, i) {
      assert e[i] != IAM_SUFFIX[0] by {
        if i < at { assert e[i] == name[i]; }
        else if i > at { assert e[i] == project[i - at - 1]; }
      }
      assert i + |IAM_SUFFIX| <= |e| ==> e[i..i + |IAM_SUFFIX|][0] == e[i];
    }
    IndexOfFirst(e, "@", at);
    IndexOfFirst(e, IAM_SUFFIX, dot);
    assert e[at + 1..dot] == project;
  }

  /** An occurrence with none before it is what `indexOf` reports. */
  lemma IndexOfFirst(s: string, pat: string, i: nat)
    requires OccursAt(s, pat, i)
    requires forall j :: 0 <= j < i ==> !OccursAt(s, pat, j)
    ensures IndexOf(s, pat) == i
  {
  }

  /** The request `translate` hands to the client: one text, plain-text MIME type, global location. */
  datatype TranslateRequest = TranslateRequest(
    projectId: string, location: string, mimeType: string,
    sourceLanguage: string, targetLanguage: string, contents: seq<string>)

  function RequestFor(projectId: string, text: string, source: string, target: string): TranslateRequest {
    TranslateRequest(projectId, "global", "text/plain", source, target, [text])
  }

  /** The translation client: the translations of a response, or the message of the IOException it raised. */
  type TranslationClient = TranslateRequest -> Result<seq<string>, string>

  /** The response's translations appended one after another, in response order. */
  function Concat(parts: seq<string>): string {
    if parts == [] then "" else Concat(parts[..|parts| - 1]) + parts[|parts| - 1]
  }

  /** Concatenation distributes over splitting the response list anywhere. */
  lemma {:induction false} ConcatAppend(a: seq<string>, b: seq<string>)
    ensures Concat(a + b) == Concat(a) + Concat(b)
    decreases |b|
  {
    if b == [] {
      assert a + b == a;
    } else {
      var last := |b| - 1;
      assert (a + b)[..|a + b| - 1] == a + b[..last];
      ConcatAppend(a, b[..last]);
    }
  }

  /** Each translation appears in the result, at the offset given by the lengths of those before it. */
  lemma {:induction false} ConcatPlacesEachPart(parts: seq<string>, k: nat)
    requires k < |parts|
    ensures |Concat(parts[..k])| + |parts[k]| <= |Concat(parts)|
    ensures Concat(parts)[|Concat(parts[..k])|..|Concat(parts[..k])| + |parts[k]|] == parts[k]
  {
    assert parts == parts[..k] + [parts[k]] + parts[k + 1..];
    ConcatAppend(parts[..k] + [parts[k]], parts[k + 1..]);
    ConcatAppend(parts[..k], [parts[k]]);
    assert Concat([parts[k]]) == parts[k] by {
      assert [parts[k]][..0] == [];
    }
  }

  /**
    * What `translate` returns: "" for blank text without consulting the client,
    * otherwise the concatenated translations or the client's IOException.
    */
  function TranslationOf(projectId: string, text: Option<string>, source: string, target: string,
                         client: TranslationClient): Result<string, string>
  {
    if IsBlank(text) then Success("")
    else
      match client(RequestFor(projectId, text.value, source, target))
      case Success(parts) => Success(Concat(parts))
      case Failure(message) => Failure(message)
  }

  /**
    * The email step of the constructor: the indices of the first '@' and the
    * first suffix are looked up, and the text between them taken when the
    * suffix comes after the '@'.
    */
  method ExtractProjectId(clientEmail: Option<string>) returns (id: Option<string>)
    ensures id == ProjectFromEmail(clientEmail)
  {
    id := None;
    if clientEmail.Some? && Contains(clientEmail.value, "@") && Contains(clientEmail.value, IAM_SUFFIX) {
      var e := clientEmail.value;
      var atIndex := IndexOf(e, "@");
      var dotIamIndex := IndexOf(e, IAM_SUFFIX);
      if atIndex != -1 && dotIamIndex != -1 && dotIamIndex > atIndex {
        id := Some(e[atIndex + 1..dotIamIndex]);
      }
    }
  }

  class TranslationService {
    /** The project all requests are billed to. */
    var projectId: string
    /** Every request handed to the translation client, oldest first. */
    var requests: seq<TranslateRequest>

    /**
      * Resolves the project id step by step, overwriting it while it is
      * still unset. `env` is the value of GOOGLE_CLOUD_PROJECT.
      */
    constructor (credentials: Credentials, env: Option<string>)
      ensures projectId == ResolveProjectId(credentials, env)
      ensures requests == []
    {
      var id := credentials.quotaProjectId;
      if id.None? || id.value == "" {
        var clientEmail: Option<string> := None;
        if credentials.ServiceAccountCredentials? {
          clientEmail := credentials.clientEmail;
        }
        var extracted := ExtractProjectId(clientEmail);
        if extracted.Some? {
          id := extracted;
        }
      }
      if id.None? || id.value == "" {
        id := Some(if env.Some? then env.value else FALLBACK_PROJECT_ID);
      }
      projectId := id.value;
      requests := [];
    }

    /**
      * `translate(text, source, target)`. Blank text yields "" and sends
      * nothing; otherwise exactly one request goes to the client and the
      * result is its translations concatenated in response order.
      */
    method Translate(text: Option<string>, source: string, target: string, client: TranslationClient)
      returns (r: Result<string, string>)
      modifies this`requests
      ensures r == TranslationOf(projectId, text, source, target, client)
      ensures IsBlank(text) ==> requests == old(requests)
      ensures !IsBlank(text) ==> requests == old(requests) + [RequestFor(projectId, text.value, source, target)]
    {
      if text.None? || Trim(text.value) == "" {
        return Success("");
      }
      var request := RequestFor(projectId, text.value, source, target);
      requests := requests + [request];
      var response := client(request);
      if response.Failure? {
        return Failure(response.error);
      }
      var parts := response.value;
      var translatedText := "";
      var i := 0;
      while i < |parts|
        invariant 0 <= i <= |parts|
        invariant translatedText == Concat(parts[..i])
      {
        assert parts[..i + 1][..i] == parts[..i];
        translatedText := translatedText + parts[i];
        i := i + 1;
      }
      assert parts[..|parts|] == parts;
      return Success(translatedText);
    }
  }
}
