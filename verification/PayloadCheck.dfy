/** The check that keeps private key material and config-breaking strings out of the vault. */
module PayloadCheck {
  import opened Wrappers
  import opened Records

  datatype Rejection = PrivateKeyMaterial | InvalidField

  const MARKER := "PRIVATE KEY"

  predicate Contains(s: string, sub: string) {
    sub <= s || (s != "" && Contains(s[1..], sub))
  }

  /** A string contains another exactly when the other stands at some position of it. */
  lemma {:induction false} ContainsIff(s: string, sub: string)
    ensures Contains(s, sub) <==> exists i {:trigger s[i..]} | 0 <= i <= |s| :: sub <= s[i..]
  {
    assert s[0..] == s;
    if s != "" {
      ContainsIff(s[1..], sub);
      assert forall i | 0 <= i <= |s| - 1 :: s[1..][i..] == s[i + 1..];
      forall i | 0 < i <= |s| && sub <= s[i..] ensures Contains(s, sub) {
        assert s[1..][i - 1..] == s[i..];
      }
    }
  }

  /** What the check asks of one string, for kinds other than PrivateKey. */
  predicate CleanString(kind: Kind, s: string) {
    && !Contains(s, MARKER)
    && '\n' !in s
    && '\r' !in s
    && (kind.Snippet? || '"' !in s)
  }

  /** Every string at any depth of `v` is clean. */
  predicate Clean(kind: Kind, v: Json)
    decreases v
  {
    match v
    case JString(s) => CleanString(kind, s)
    case JArray(items) => forall i | 0 <= i < |items| :: Clean(kind, items[i])
    case JObject(members) => forall i | 0 <= i < |members| :: Clean(kind, members[i].value)
    case _ => true
  }

  predicate Acceptable(kind: Kind, v: Json) {
    kind.PrivateKey? || Clean(kind, v)
  }

  // ---- the worklist's measure -----------------------------------------------

  ghost function Size(v: Json): nat
    decreases v, 1
  {
    1 + match v
        case JArray(items) => SizeOfItems(items)
        case JObject(members) => SizeOfMembers(members)
        case _ => 0
  }

  ghost function SizeOfItems(items: seq<Json>): nat
    decreases items, 0
  {
    if items == [] then 0 else SizeOfItems(items[..|items| - 1]) + Size(items[|items| - 1])
  }

  ghost function SizeOfMembers(members: seq<Member>): nat
    decreases members, 0
  {
    if members == [] then 0 else SizeOfMembers(members[..|members| - 1]) + Size(members[|members| - 1].value)
  }

  function Values(members: seq<Member>): seq<Json> {
    seq(|members|, i requires 0 <= i < |members| => members[i].value)
  }

  function Children(v: Json): seq<Json> {
    match v
    case JArray(items) => items
    case JObject(members) => Values(members)
    case _ => []
  }

  lemma {:induction false} SizeOfItemsAppend(a: seq<Json>, b: seq<Json>)
    ensures SizeOfItems(a + b) == SizeOfItems(a) + SizeOfItems(b)
  {
    if b == [] {
      assert a + b == a;
    } else {
      SizeOfItemsAppend(a, b[..|b| - 1]);
      assert (a + b)[..|a + b| - 1] == a + b[..|b| - 1];
    }
  }

  lemma {:induction false} SizeOfValues(members: seq<Member>)
    ensures SizeOfItems(Values(members)) == SizeOfMembers(members)
  {
    if members != [] {
      var front := members[..|members| - 1];
      SizeOfValues(front);
      assert Values(members)[..|members| - 1] == Values(front);
    }
  }

  ghost predicate AllClean(kind: Kind, stack: seq<Json>) {
    forall v | v in stack :: Clean(kind, v)
  }

  lemma AllCleanAppend(kind: Kind, a: seq<Json>, b: seq<Json>)
    ensures AllClean(kind, a + b) <==> AllClean(kind, a) && AllClean(kind, b)
  {
    assert forall v | v in a :: v in a + b;
    assert forall v | v in b :: v in a + b;
  }

  lemma CleanByChildren(kind: Kind, v: Json)
    requires v.JArray? || v.JObject?
    ensures Clean(kind, v) <==> AllClean(kind, Children(v))
  {
    var cs := Children(v);
    assert forall i | 0 <= i < |cs| :: cs[i] in cs;
    if v.JObject? {
      assert forall i | 0 <= i < |cs| :: cs[i] == v.members[i].value;
    }
  }

  /** Replacing the popped value by its children keeps the verdict and shrinks the measure. */
  lemma PopOne(kind: Kind, stack: seq<Json>)
    requires stack != []
    ensures var v, rest := stack[|stack| - 1], stack[..|stack| - 1];
            && (v.JString? ==> (AllClean(kind, stack) <==> AllClean(kind, rest) && CleanString(kind, v.s)))
            && (!v.JString? ==> (AllClean(kind, stack) <==> AllClean(kind, rest + Children(v))))
            && SizeOfItems(rest + Children(v)) < SizeOfItems(stack)
  {
    var v, rest := stack[|stack| - 1], stack[..|stack| - 1];
    assert stack == rest + [v];
    AllCleanAppend(kind, rest, [v]);
    AllCleanAppend(kind, rest, Children(v));
    assert AllClean(kind, [v]) <==> Clean(kind, v) by {
      assert v in [v];
    }
    if v.JArray? || v.JObject? {
      CleanByChildren(kind, v);
    }
    SizeOfItemsAppend(rest, Children(v));
    if v.JObject? {
      SizeOfValues(v.members);
    }
  }

  method CheckString(kind: Kind, s: string) returns (r: Result<(), Rejection>)
    ensures r.Ok? <==> CleanString(kind, s)
    ensures r == Err(PrivateKeyMaterial) <==> Contains(s, MARKER)
  {
    if Contains(s, MARKER) {
      return Err(PrivateKeyMaterial);
    }
    if '\n' in s || '\r' in s {
      return Err(InvalidField);
    }
    if !kind.Snippet? && '"' in s {
      return Err(InvalidField);
    }
    return Ok(());
  }

  /**
   Drains a stack of values. It ends on every finite value and accepts exactly when every
   string at any depth is clean.
   */
  method ValidatePayload(kind: Kind, value: Json) returns (r: Result<(), Rejection>)
    ensures r.Ok? <==> Acceptable(kind, value)
  {
    if kind.PrivateKey? {
      return Ok(());
    }
    var stack := [value];
    while stack != []
      invariant Clean(kind, value) <==> AllClean(kind, stack)
      decreases SizeOfItems(stack)
    {
      PopOne(kind, stack);
      var v := stack[|stack| - 1];
      stack := stack[..|stack| - 1];
      assert stack + [] == stack;
      match v
      case JString(s) =>
        var checked := CheckString(kind, s);
        if checked.Err? {
          return checked;
        }
      case JArray(items) =>
        stack := stack + items;
      case JObject(members) =>
        stack := stack + Values(members);
      case _ =>
    }
    return Ok(());
  }

  /** Marker and line-break freedom reach every nested string of an accepted value. */
  ghost predicate StringAt(v: Json, s: string)
    decreases v
  {
    match v
    case JString(t) => t == s
    case JArray(items) => exists i | 0 <= i < |items| :: StringAt(items[i], s)
    case JObject(members) => exists i | 0 <= i < |members| :: StringAt(members[i].value, s)
    case _ => false
  }

  /** Acceptance means exactly that every string occurring anywhere in the value is clean. */
  lemma {:induction false} CleanIff(kind: Kind, v: Json)
    ensures Clean(kind, v) <==> forall s | StringAt(v, s) :: CleanString(kind, s)
    decreases v
  {
    match v
    case JString(t) =>
      assert StringAt(v, t);
    case JArray(items) =>
      forall i | 0 <= i < |items| {
        CleanIff(kind, items[i]);
      }
      forall i, s | 0 <= i < |items| && StringAt(items[i], s) ensures StringAt(v, s) {
      }
    case JObject(members) =>
      forall i | 0 <= i < |members| {
        CleanIff(kind, members[i].value);
      }
      forall i, s | 0 <= i < |members| && StringAt(members[i].value, s) ensures StringAt(v, s) {
      }
    case _ =>
  }

  /**
   A payload is accepted exactly when its kind is the one made for key material, or no string at any
   depth has the marker anywhere in it, a line break, or, outside snippets, a double quote.
   */
  lemma AcceptableIff(kind: Kind, v: Json)
    ensures Acceptable(kind, v) <==>
              kind.PrivateKey? || forall s | StringAt(v, s) ::
                && (forall i {:trigger s[i..]} | 0 <= i <= |s| :: !("PRIVATE KEY" <= s[i..]))
                && '\n' !in s && '\r' !in s && ('"' in s ==> kind.Snippet?)
  {
    CleanIff(kind, v);
    forall s | StringAt(v, s)
      ensures Contains(s, MARKER) <==> exists i {:trigger s[i..]} | 0 <= i <= |s| :: "PRIVATE KEY" <= s[i..]
    {
      ContainsIff(s, MARKER);
    }
  }
}
