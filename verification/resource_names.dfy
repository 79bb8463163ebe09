/**
 * The Dialogflow CX session resource name built in `setupBot`: eight
 * components joined with '/', as Kotlin's `joinToString(separator = "/")`
 * does, and the matching split, as `String.split("/")` does (every
 * separator cuts, empty pieces are kept).
 */
module ResourceNames {

  const Separator: char := '/'

  /** `parts.joinToString(separator)`. */
  function Join(parts: seq<string>, separator: char): string
  {
    if |parts| == 0 then ""
    else if |parts| == 1 then parts[0]
    else parts[0] + [separator] + Join(parts[1..], separator)
  }

  /** `s.split(separator)`: the pieces between separators, empty ones included. */
  function Split(s: string, separator: char): (r: seq<string>)
    ensures |r| >= 1
  {
    if |s| == 0 then [""]
    else
      var rest := Split(s[1..], separator);
      if s[0] == separator then [""] + rest
      else [[s[0]] + rest[0]] + rest[1..]
  }

  /** The number of times `c` occurs in `s`. */
  function Occurrences(s: string, c: char): nat
  {
    if |s| == 0 then 0 else (if s[0] == c then 1 else 0) + Occurrences(s[1..], c)
  }

  /** The components of a session name, in order. */
  function SessionComponents(projectId: string, locationId: string, agentId: string, sessionId: string): seq<string>
  {
    ["projects", projectId, "locations", locationId, "agents", agentId, "sessions", sessionId]
  }

  /** `sessionName`: the components joined with '/'. */
  function SessionName(projectId: string, locationId: string, agentId: string, sessionId: string): (r: string)
    ensures |r| > |"projects/"|
  {
    var parts := SessionComponents(projectId, locationId, agentId, sessionId);
    assert parts[0] == "projects" && |Join(parts[1..], Separator)| > 0 by {
      assert parts[1..][0] == projectId && |parts[1..]| > 1;
    }
    Join(parts, Separator)
  }

  /** The session name is the resource name `projects/{p}/locations/{l}/agents/{a}/sessions/{s}`. */
  lemma SessionNameFormat(projectId: string, locationId: string, agentId: string, sessionId: string)
    ensures SessionName(projectId, locationId, agentId, sessionId)
            == "projects/" + projectId + "/locations/" + locationId + "/agents/" + agentId
               + "/sessions/" + sessionId
  {
    var p2 := ["projects", projectId];
    var p4 := p2 + ["locations"] + [locationId];
    var p6 := p4 + ["agents"] + [agentId];
    var p8 := p6 + ["sessions"] + [sessionId];
    assert p8 == SessionComponents(projectId, locationId, agentId, sessionId);
    JoinAppend(["projects"], projectId, Separator);
    assert ["projects"] + [projectId] == p2;
    var n2 := "projects/" + projectId;
    assert Join(p2, Separator) == n2;
    JoinAppendPair(p2, "locations", locationId);
    var n4 := n2 + "/locations/" + locationId;
    assert n2 + [Separator] + "locations" + [Separator] == n2 + "/locations/";
    assert Join(p4, Separator) == n4;
    JoinAppendPair(p4, "agents", agentId);
    var n6 := n4 + "/agents/" + agentId;
    assert n4 + [Separator] + "agents" + [Separator] == n4 + "/agents/";
    assert Join(p6, Separator) == n6;
    JoinAppendPair(p6, "sessions", sessionId);
    assert n6 + [Separator] + "sessions" + [Separator] == n6 + "/sessions/";
  }

  lemma {:induction false} JoinAppend(parts: seq<string>, last: string, separator: char)
    requires |parts| >= 1
    ensures Join(parts + [last], separator) == Join(parts, separator) + [separator] + last
  {
    if |parts| > 1 {
      assert (parts + [last])[1..] == parts[1..] + [last];
      JoinAppend(parts[1..], last, separator);
    }
  }

  /** Appending a `name` and its identifier adds `/name/` and the identifier. */
  lemma JoinAppendPair(parts: seq<string>, name: string, id: string)
    requires |parts| >= 1
    ensures Join(parts + [name] + [id], Separator) == Join(parts, Separator) + [Separator] + name + [Separator] + id
  {
    JoinAppend(parts, name, Separator);
    JoinAppend(parts + [name], id, Separator);
  }

  lemma {:induction false} SplitCount(s: string, separator: char)
    ensures |Split(s, separator)| == 1 + Occurrences(s, separator)
  {
    if |s| > 0 {
      SplitCount(s[1..], separator);
    }
  }

  lemma {:induction false} OccurrencesAppend(a: string, b: string, c: char)
    ensures Occurrences(a + b, c) == Occurrences(a, c) + Occurrences(b, c)
  {
    if |a| == 0 {
      assert a + b == b;
    } else {
      assert (a + b)[1..] == a[1..] + b;
      OccurrencesAppend(a[1..], b, c);
    }
  }

  lemma {:induction false} NoOccurrences(s: string, c: char)
    ensures Occurrences(s, c) == 0 <==> c !in s
  {
    if |s| > 0 {
      NoOccurrences(s[1..], c);
      assert s == [s[0]] + s[1..];
    }
  }

  /** A piece free of the separator, then the separator, then more: the piece is the first field. */
  lemma {:induction false} SplitPiece(w: string, rest: string, separator: char)
    requires separator !in w
    ensures Split(w + [separator] + rest, separator) == [w] + Split(rest, separator)
    ensures Split(w, separator) == [w]
  {
    if |w| > 0 {
      SplitPiece(w[1..], rest, separator);
      assert (w + [separator] + rest)[1..] == w[1..] + [separator] + rest;
      assert w == [w[0]] + w[1..];
    } else {
      assert w + [separator] + rest == [separator] + rest;
    }
  }

  /** Splitting a join recovers the parts when no part holds the separator. */
  lemma {:induction false} SplitJoin(parts: seq<string>, separator: char)
    requires |parts| >= 1
    requires forall i :: 0 <= i < |parts| ==> separator !in parts[i]
    ensures Split(Join(parts, separator), separator) == parts
  {
    if |parts| == 1 {
      SplitPiece(parts[0], "", separator);
    } else {
      SplitJoin(parts[1..], separator);
      SplitPiece(parts[0], Join(parts[1..], separator), separator);
    }
  }

  /** A join has more fields than parts as soon as one part holds the separator. */
  lemma {:induction false} SplitJoinTooMany(parts: seq<string>, separator: char, k: nat)
    requires k < |parts| && separator in parts[k]
    ensures |Split(Join(parts, separator), separator)| > |parts|
  {
    JoinCount(parts, separator);
    SplitCount(Join(parts, separator), separator);
    NoOccurrences(parts[k], separator);
    CountsAtLeast(parts, separator, k);
  }

  /** The separators in a join: one between each two parts, plus those inside the parts. */
  function CountIn(parts: seq<string>, c: char): nat
  {
    if parts == [] then 0 else Occurrences(parts[0], c) + CountIn(parts[1..], c)
  }

  lemma {:induction false} JoinCount(parts: seq<string>, separator: char)
    requires |parts| >= 1
    ensures Occurrences(Join(parts, separator), separator) == |parts| - 1 + CountIn(parts, separator)
  {
    if |parts| > 1 {
      JoinCount(parts[1..], separator);
      OccurrencesAppend(parts[0] + [separator], Join(parts[1..], separator), separator);
      OccurrencesAppend(parts[0], [separator], separator);
      assert Occurrences([separator], separator) == 1 by {
        assert [separator][1..] == [];
      }
    } else {
      assert parts[1..] == [];
    }
  }

  lemma {:induction false} CountsAtLeast(parts: seq<string>, c: char, k: nat)
    requires k < |parts|
    ensures CountIn(parts, c) >= Occurrences(parts[k], c)
  {
    if k > 0 {
      CountsAtLeast(parts[1..], c, k - 1);
    }
  }

  /**
   * Splitting the session name on '/' gives back its eight components
   * exactly when none of the identifiers holds a '/'.
   */
  lemma SessionNameRoundTrip(projectId: string, locationId: string, agentId: string, sessionId: string)
    ensures var parts := SessionComponents(projectId, locationId, agentId, sessionId);
      Split(SessionName(projectId, locationId, agentId, sessionId), '/') == parts
      <==> ('/' !in projectId && '/' !in locationId && '/' !in agentId && '/' !in sessionId)
  {
    var parts := SessionComponents(projectId, locationId, agentId, sessionId);
    if forall i :: 0 <= i < |parts| ==> '/' !in parts[i] {
      assert parts[1] == projectId && parts[3] == locationId && parts[5] == agentId && parts[7] == sessionId;
      SplitJoin(parts, '/');
    } else {
      var k :| 0 <= k < |parts| && '/' in parts[k];
      SplitJoinTooMany(parts, '/', k);
    }
  }
}
