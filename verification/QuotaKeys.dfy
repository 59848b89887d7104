/** Redis keys of the run-quota limiter (redis_limiter.go, safeKey and the key builders). */
module QuotaKeys {
  import opened Text

  datatype Actor = Actor(user: string, project: string)

  /** The counter and marker keys, with their variable segments already sanitized. */
  datatype Key =
    | Active(project: string, user: string)
    | Hour(project: string, user: string, stamp: string)
    | Tokens(project: string, user: string, stamp: string)
    | RunMarker(run: string)

  function Sanitize(s: string): (r: string)
    ensures |r| == |s|
    ensures ':' !in r
  {
    if s == [] then []
    else [if s[0] in {':', ' ', '\n', '\r', '\t'} then '_' else s[0]] + Sanitize(s[1..])
  }

  /** A segment that can stand between colons. */
  function SafeKey(value: string): (r: string)
    ensures r != [] && ':' !in r
  {
    var trimmed := Trim(value, IsGoSpace);
    if trimmed == [] then "unknown" else Sanitize(trimmed)
  }

  lemma {:induction false} SanitizeAt(s: string, i: nat)
    requires i < |s|
    ensures Sanitize(s)[i] == if s[i] in {':', ' ', '\n', '\r', '\t'} then '_' else s[i]
  {
    if i > 0 {
      SanitizeAt(s[1..], i - 1);
    }
  }

  /** A name in which nothing has to be replaced. */
  predicate Clean(name: string) {
    name != "" && Trimmed(name, IsGoSpace)
    && forall i :: 0 <= i < |name| ==> name[i] !in {':', ' ', '\n', '\r', '\t'}
  }

  /** A clean name is its own segment, so two actors with clean names share a slot counter only if they are the
      same; blank names all go by "unknown". */
  lemma CleanNamesApart(a: Actor, b: Actor)
    requires Clean(a.user) && Clean(a.project) && Clean(b.user) && Clean(b.project)
    ensures ActiveKey(a) == Active(a.project, a.user)
    ensures ActiveKey(a) == ActiveKey(b) <==> a == b
    ensures forall blank :: Trim(blank, IsGoSpace) == "" ==> SafeKey(blank) == "unknown"
  {
    CleanStays(a.user);
    CleanStays(a.project);
    CleanStays(b.user);
    CleanStays(b.project);
  }

  lemma CleanStays(name: string)
    requires Clean(name)
    ensures SafeKey(name) == name
  {
    TrimIsTrimmed(name, IsGoSpace);
    forall i | 0 <= i < |name| ensures Sanitize(name)[i] == name[i] {
      SanitizeAt(name, i);
    }
  }

  function ActiveKey(actor: Actor): Key {
    Active(SafeKey(actor.project), SafeKey(actor.user))
  }

  function HourKey(actor: Actor, stamp: string): Key {
    Hour(SafeKey(actor.project), SafeKey(actor.user), stamp)
  }

  function TokenKey(actor: Actor, stamp: string): Key {
    Tokens(SafeKey(actor.project), SafeKey(actor.user), stamp)
  }

  /** The key string sent to Redis. */
  function Render(prefix: string, k: Key): string {
    match k
    case Active(p, u) => prefix + (":active:" + (p + (":" + u)))
    case Hour(p, u, t) => prefix + (":runs_per_hour:" + (p + (":" + (u + (":" + t)))))
    case Tokens(p, u, t) => prefix + (":model_tokens_per_day:" + (p + (":" + (u + (":" + t)))))
    case RunMarker(r) => prefix + (":run:" + r)
  }

  /** Segments as the limiter builds them: sanitized names, digits for the window stamp. */
  predicate WellFormed(k: Key) {
    match k
    case Active(p, u) => ':' !in p && ':' !in u
    case Hour(p, u, t) => ':' !in p && ':' !in u && ':' !in t
    case Tokens(p, u, t) => ':' !in p && ':' !in u && ':' !in t
    case RunMarker(r) => ':' !in r
  }

  lemma {:induction false} SplitAtColon(a: string, x: string, b: string, y: string)
    requires ':' !in a && ':' !in b
    requires a + (":" + x) == b + (":" + y)
    ensures a == b && x == y
  {
    var s := a + (":" + x);
    assert s[|a|] == ':' && s[|b|] == ':';
    assert forall i :: 0 <= i < |a| ==> s[i] == a[i];
    assert forall i :: 0 <= i < |b| ==> s[i] == b[i];
    assert |a| == |b|;
    assert a == s[..|a|] && b == s[..|b|];
    assert x == s[|a| + 1..] && y == s[|b| + 1..];
  }

  lemma DropPrefix(p: string, a: string, b: string)
    requires p + a == p + b
    ensures a == b
  {
    assert a == (p + a)[|p|..];
    assert b == (p + b)[|p|..];
  }

  /** Text after the prefix, cut at its second colon, tells the family apart. */
  function Family(k: Key): string {
    match k
    case Active(_, _) => "active"
    case Hour(_, _, _) => "runs_per_hour"
    case Tokens(_, _, _) => "model_tokens_per_day"
    case RunMarker(_) => "run"
  }

  function Segments(k: Key): string {
    match k
    case Active(p, u) => p + (":" + u)
    case Hour(p, u, t) => p + (":" + (u + (":" + t)))
    case Tokens(p, u, t) => p + (":" + (u + (":" + t)))
    case RunMarker(r) => r
  }

  lemma RenderShape(prefix: string, k: Key)
    ensures Render(prefix, k) == prefix + (":" + (Family(k) + (":" + Segments(k))))
  {
    var f, rest := Family(k), Segments(k);
    assert ":active:" == ":" + ("active" + ":");
    assert ":runs_per_hour:" == ":" + ("runs_per_hour" + ":");
    assert ":model_tokens_per_day:" == ":" + ("model_tokens_per_day" + ":");
    assert ":run:" == ":" + ("run" + ":");
    assert (":" + (f + ":")) + rest == ":" + (f + (":" + rest));
  }

  /** Distinct keys never share a Redis string, so the counters and markers do not interfere. */
  lemma RenderInjective(prefix: string, k: Key, l: Key)
    requires WellFormed(k) && WellFormed(l)
    requires Render(prefix, k) == Render(prefix, l)
    ensures k == l
  {
    RenderShape(prefix, k);
    RenderShape(prefix, l);
    DropPrefix(prefix, ":" + (Family(k) + (":" + Segments(k))), ":" + (Family(l) + (":" + Segments(l))));
    DropPrefix(":", Family(k) + (":" + Segments(k)), Family(l) + (":" + Segments(l)));
    SplitAtColon(Family(k), Segments(k), Family(l), Segments(l));
    assert Family(k)[0] == Family(l)[0] && |Family(k)| == |Family(l)|;
    match k
    case RunMarker(_) =>
    case Active(p, u) => SplitAtColon(p, u, l.project, l.user);
    case Hour(p, u, t) =>
      SplitAtColon(p, u + (":" + t), l.project, l.user + (":" + l.stamp));
      SplitAtColon(u, t, l.user, l.stamp);
    case Tokens(p, u, t) =>
      SplitAtColon(p, u + (":" + t), l.project, l.user + (":" + l.stamp));
      SplitAtColon(u, t, l.user, l.stamp);
  }
}
