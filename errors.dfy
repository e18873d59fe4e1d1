/**
 * The error taxonomy of the networking layer: one base class,
 * HttpClientError, itself an Exception, and four sibling kinds beneath it.
 * Each class is modelled by a constant of ErrorKind; the class statement's
 * base list is modelled by Parent, and Python's issubclass by IsSubclass.
 */
module Errors {
  import opened Wrappers

  datatype ErrorKind =
    | Exception            // Python's built-in Exception: the root here
    | HttpClientError      // base exception for HTTP client failures
    | CircuitOpenError     // the circuit breaker blocks a request
    | RobotsBlockedError   // robots.txt disallows a request
    | RequestTimeoutError  // a request exceeds a configured timeout
    | RetryableHttpError   // an error that is eligible for retry

  /** The four specific kinds declared directly beneath HttpClientError. */
  predicate IsSpecific(k: ErrorKind) {
    k.CircuitOpenError? || k.RobotsBlockedError? || k.RequestTimeoutError? || k.RetryableHttpError?
  }

  /** Number of inheritance steps from k up to the root Exception. */
  function Depth(k: ErrorKind): nat {
    match k
    case Exception => 0
    case HttpClientError => 1
    case _ => 2
  }

  /** The single base class named in k's class statement; None for the root. */
  function Parent(k: ErrorKind): (p: Option<ErrorKind>)
    ensures p.None? <==> k == Exception
    ensures p.Some? ==> Depth(p.value) + 1 == Depth(k)
    ensures IsSpecific(k) <==> p == Some(HttpClientError)
  {
    match k
    case Exception => None
    case HttpClientError => Some(Exception)
    case CircuitOpenError => Some(HttpClientError)
    case RobotsBlockedError => Some(HttpClientError)
    case RequestTimeoutError => Some(HttpClientError)
    case RetryableHttpError => Some(HttpClientError)
  }

  /** Python's issubclass(sub, sup): sup is sub itself or an ancestor of it. */
  predicate IsSubclass(sub: ErrorKind, sup: ErrorKind)
    ensures sub == sup ==> IsSubclass(sub, sup)
    ensures sup == Exception ==> IsSubclass(sub, sup)
    ensures IsSubclass(sub, sup) ==> Depth(sup) <= Depth(sub)
    decreases Depth(sub)
  {
    sub == sup || (Parent(sub).Some? && IsSubclass(Parent(sub).value, sup))
  }

  /** What Err accepts: an instance of HttpClientError or of one of its subclasses. */
  predicate IsHttpClientError(k: ErrorKind)
    ensures IsHttpClientError(k) <==> k != Exception
  {
    IsSubclass(k, HttpClientError)
  }

  /**
   * The method resolution order of k within the taxonomy: k first, then its
   * bases up to Exception (Python's own BaseException and object are not part
   * of this model).
   */
  function Mro(k: ErrorKind): (m: seq<ErrorKind>)
    ensures |m| == Depth(k) + 1
    ensures m[0] == k && m[|m| - 1] == Exception
    ensures forall i :: 0 < i < |m| ==> Some(m[i]) == Parent(m[i - 1])
    decreases Depth(k)
  {
    match Parent(k)
    case None => [k]
    case Some(p) => [k] + Mro(p)
  }

  /** The i-th entry of k's MRO lies exactly i inheritance steps above k. */
  lemma {:induction false} MroDepths(k: ErrorKind, i: nat)
    requires i < |Mro(k)|
    ensures Depth(Mro(k)[i]) + i == Depth(k)
    decreases Depth(k)
  {
    if i > 0 {
      MroDepths(Parent(k).value, i - 1);
    }
  }

  /** An MRO never lists a class twice. */
  lemma MroHasNoDuplicates(k: ErrorKind)
    ensures forall i, j :: 0 <= i < j < |Mro(k)| ==> Mro(k)[i] != Mro(k)[j]
  {
    forall i, j | 0 <= i < j < |Mro(k)| ensures Mro(k)[i] != Mro(k)[j] {
      MroDepths(k, i);
      MroDepths(k, j);
    }
  }

  /** issubclass agrees with membership in the MRO (the reference definition). */
  lemma {:induction false} SubclassIffInMro(sub: ErrorKind, sup: ErrorKind)
    ensures IsSubclass(sub, sup) <==> sup in Mro(sub)
    decreases Depth(sub)
  {
    match Parent(sub)
    case None =>
    case Some(p) =>
      SubclassIffInMro(p, sup);
      assert Mro(sub) == [sub] + Mro(p);
  }

  /** A subclass is never shallower than its superclass, and equally deep only when equal. */
  lemma {:induction false} SubclassDepth(sub: ErrorKind, sup: ErrorKind)
    requires IsSubclass(sub, sup)
    ensures Depth(sup) <= Depth(sub)
    ensures Depth(sup) == Depth(sub) ==> sub == sup
    decreases Depth(sub)
  {
    if sub != sup {
      SubclassDepth(Parent(sub).value, sup);
    }
  }

  /** issubclass is transitive. */
  lemma {:induction false} SubclassTransitive(a: ErrorKind, b: ErrorKind, c: ErrorKind)
    requires IsSubclass(a, b) && IsSubclass(b, c)
    ensures IsSubclass(a, c)
    decreases Depth(a)
  {
    if a != b {
      SubclassTransitive(Parent(a).value, b, c);
    }
  }

  /** issubclass is antisymmetric; with reflexivity and transitivity, a partial order. */
  lemma SubclassAntisymmetric(a: ErrorKind, b: ErrorKind)
    requires IsSubclass(a, b) && IsSubclass(b, a)
    ensures a == b
  {
    SubclassDepth(a, b);
    SubclassDepth(b, a);
  }

  /** HttpClientError is an Exception, and Exception is the root of the taxonomy. */
  lemma {:induction false} ExceptionIsRoot(k: ErrorKind)
    ensures IsSubclass(k, Exception)
    ensures IsSubclass(Exception, k) <==> k == Exception
    ensures Parent(HttpClientError) == Some(Exception)
    decreases Depth(k)
  {
    if k != Exception {
      ExceptionIsRoot(Parent(k).value);
    }
  }

  /** Each of the four specific kinds is a direct subclass of HttpClientError. */
  lemma SpecificKindsAreHttpClientErrors(k: ErrorKind)
    requires IsSpecific(k)
    ensures Parent(k) == Some(HttpClientError)
    ensures IsHttpClientError(k) && IsSubclass(k, Exception)
  {
  }

  /** The four specific kinds are siblings: none of them is a subclass of another. */
  lemma SpecificKindsAreSiblings(a: ErrorKind, b: ErrorKind)
    requires IsSpecific(a) && IsSpecific(b)
    ensures IsSubclass(a, b) <==> a == b
  {
    if IsSubclass(a, b) {
      SubclassDepth(a, b);
    }
  }

  /**
   * The kinds Err accepts are exactly HttpClientError and its four
   * subclasses: everything in the taxonomy except the bare Exception.
   */
  lemma {:induction false} HttpClientErrorKinds(k: ErrorKind)
    ensures IsHttpClientError(k) <==> (k == HttpClientError || IsSpecific(k))
  {
    if IsHttpClientError(k) {
      SubclassDepth(k, HttpClientError);
    }
  }

  /** An error value that Err accepts. */
  type ClientError = k: ErrorKind | IsHttpClientError(k) witness HttpClientError
}
