/** The plugin's error details provider: it walks the causal chain of a
    failed stage's exception and wraps the first exception of a recognised
    kind into a program failure, unless a program failure is met first. */
module ErrorDetails {
  import opened Failures

  /** The kinds the provider recognises, in the order it tests for them once
      the program-failure test has failed. */
  const KindOrder: seq<ExceptionClass> := [
    IllegalArgumentException, IllegalStateException, URISyntaxException,
    SchemaParseException, UnexpectedFormatException, ConnectionTimeoutException
  ]

  /** The same kinds, as a set. */
  const RecognisedKinds: set<ExceptionClass> := {
    IllegalArgumentException, IllegalStateException, URISyntaxException,
    SchemaParseException, UnexpectedFormatException, ConnectionTimeoutException
  }

  /** The list and the set name the same six kinds, each once. */
  lemma KindsAgree()
    ensures forall k :: k in RecognisedKinds <==> k in KindOrder
    ensures |RecognisedKinds| == |KindOrder|
  {
  }

  /** The text around the phase and the message in a detail message. */
  const Lead: string := "Error occurred in the phase: '"
  const Middle: string := "'. Error message: "

  /** How `%s` formats a possibly null string. */
  function Shown(message: Option<string>): string
  {
    match message
    case Some(m) => m
    case None => "null"
  }

  /** The detail message of a wrapped exception: the phase quoted after the
      lead text, then the exception's message; each part can be read back at
      its own position. */
  function DetailMessage(phase: string, message: Option<string>): (s: string)
    ensures |s| == |Lead| + |phase| + |Middle| + |Shown(message)|
    ensures s[..|Lead|] == Lead
    ensures s[|Lead|..|Lead| + |phase|] == phase
    ensures s[|Lead| + |phase|..|Lead| + |phase| + |Middle|] == Middle
    ensures s[|s| - |Shown(message)|..] == Shown(message)
  {
    var s := Lead + phase + Middle + Shown(message);
    assert s == Lead + (phase + (Middle + Shown(message)));
    s
  }

  /** The error type each recognised kind is blamed on: the user for an
      illegal argument, the system for the other five. */
  function KindType(kind: ExceptionClass): ErrorType
  {
    if kind == IllegalArgumentException then User else System
  }

  /** The failure the provider builds for an exception `e` of a recognised
      kind: a bare PLUGIN category, `e`'s own message as the reason, the
      formatted detail message, not dependent, no error code, `e` as cause,
      blamed on the user exactly for an illegal argument. */
  function KindFailure(kind: ExceptionClass, e: Throwable, phase: string): (f: ProgramFailure)
    requires kind in KindOrder
    ensures f.category == PluginCategory && f.reason == e.message && !f.dependent
    ensures f.message == Some(DetailMessage(phase, e.message)) && f.cause == e
    ensures f.codeType == None && f.errorCode == None && f.documentUrl == None
    ensures f.errorType != Unknown
    ensures f.errorType == User <==> kind == IllegalArgumentException
  {
    ProgramFailure(PluginCategory, e.message, Some(DetailMessage(phase, e.message)),
                   KindType(kind), false, None, None, None, e)
  }

  /** The position in `KindOrder` of the first kind `t` is an instance of. */
  function RecognisedKind(t: Throwable): Option<nat>
  {
    FirstIndex(KindOrder, (k: ExceptionClass) => k in t.classes)
  }

  /** The recognised kinds are tried one after the other, in the order of
      `KindOrder`. */
  lemma RecognisedKindInOrder(t: Throwable)
    ensures RecognisedKind(t) ==
      if IllegalArgumentException in t.classes then Some(0)
      else if IllegalStateException in t.classes then Some(1)
      else if URISyntaxException in t.classes then Some(2)
      else if SchemaParseException in t.classes then Some(3)
      else if UnexpectedFormatException in t.classes then Some(4)
      else if ConnectionTimeoutException in t.classes then Some(5)
      else None
  {
    var r := RecognisedKind(t);
    if r.Some? {
      assert KindOrder[r.value] in t.classes;
      assert forall j :: 0 <= j < r.value ==> KindOrder[j] !in t.classes;
    } else {
      assert forall j :: 0 <= j < |KindOrder| ==> KindOrder[j] !in t.classes;
    }
  }

  /** Whether a chain element ends the scan: a program failure, or an
      exception of a recognised kind. */
  predicate Deciding(t: Throwable)
  {
    ProgramFailureException in t.classes || !(t.classes !! RecognisedKinds)
  }

  /** What the scan returns when it stops at `t`: nothing for a program
      failure (the program-failure test comes first), otherwise the failure
      built for the first recognised kind of `t`. */
  function Decision(t: Throwable, phase: string): (r: Option<ProgramFailure>)
    requires Deciding(t)
    ensures r.None? <==> ProgramFailureException in t.classes
    ensures r.Some? ==> r.value.cause == t && r.value.reason == t.message && !r.value.dependent
    ensures r.Some? ==> r.value.category == PluginCategory
    ensures r.Some? ==> r.value.message == Some(DetailMessage(phase, t.message))
    ensures r.Some? ==> (r.value.errorType == User <==> IllegalArgumentException in t.classes)
    ensures r.Some? ==> (r.value.errorType == System <==> IllegalArgumentException !in t.classes)
  {
    RecognisedKindInOrder(t);
    if ProgramFailureException in t.classes then None
    else
      var i := RecognisedKind(t).value;
      assert i == 0 <==> IllegalArgumentException in t.classes;
      Some(KindFailure(KindOrder[i], t, phase))
  }

  /** One turn of the provider's scan over a chain element `t`: the
      program-failure test, then the kind tests in their order; `stop` tells
      whether the scan returns here and `r` what it returns. */
  method Examine(t: Throwable, phase: string) returns (stop: bool, r: Option<ProgramFailure>)
    ensures stop == Deciding(t)
    ensures stop ==> r == Decision(t, phase)
  {
    RecognisedKindInOrder(t);
    stop, r := true, None;
    if ProgramFailureException in t.classes {
      return;
    }
    if IllegalArgumentException in t.classes {
      r := Some(KindFailure(IllegalArgumentException, t, phase));
      return;
    }
    if IllegalStateException in t.classes {
      r := Some(KindFailure(IllegalStateException, t, phase));
      return;
    }
    if URISyntaxException in t.classes {
      r := Some(KindFailure(URISyntaxException, t, phase));
      return;
    }
    if SchemaParseException in t.classes {
      r := Some(KindFailure(SchemaParseException, t, phase));
      return;
    }
    if UnexpectedFormatException in t.classes {
      r := Some(KindFailure(UnexpectedFormatException, t, phase));
      return;
    }
    if ConnectionTimeoutException in t.classes {
      r := Some(KindFailure(ConnectionTimeoutException, t, phase));
      return;
    }
    stop := false;
  }

  /** The provider's `getExceptionDetails`: the chain is scanned in order and
      its first deciding element alone fixes the result; a chain without one
      yields nothing. */
  method GetExceptionDetails(chain: seq<Throwable>, phase: string) returns (r: Option<ProgramFailure>)
    ensures FirstIndex(chain, Deciding).None? ==> r == None
    ensures FirstIndex(chain, Deciding).Some? ==>
      r == Decision(chain[FirstIndex(chain, Deciding).value], phase)
  {
    var n := 0;
    while n < |chain|
      invariant 0 <= n <= |chain|
      invariant forall j :: 0 <= j < n ==> !Deciding(chain[j])
    {
      var stop, found := Examine(chain[n], phase);
      if stop {
        FirstIndexAt(chain, Deciding, n);
        return found;
      }
      n := n + 1;
    }
    return None;
  }

  /** A program failure met before any recognised exception suppresses the
      wrapping, even when the same element is also of a recognised kind. */
  lemma ProgramFailureSuppresses(chain: seq<Throwable>, p: nat, phase: string)
    requires p < |chain| && ProgramFailureException in chain[p].classes
    requires forall j :: 0 <= j < p ==> !Deciding(chain[j])
    ensures FirstIndex(chain, Deciding) == Some(p)
    ensures Decision(chain[p], phase) == None
  {
    assert Deciding(chain[p]);
    FirstIndexAt(chain, Deciding, p);
  }

  /** Exceptions further down the chain than the first deciding one do not
      change what the provider returns. */
  lemma LaterCausesIgnored(chain: seq<Throwable>, later: seq<Throwable>)
    requires FirstIndex(chain, Deciding).Some?
    ensures FirstIndex(chain + later, Deciding) == FirstIndex(chain, Deciding)
  {
    FirstIndexIgnoresRest(chain, later, Deciding);
  }
}
