/** The class admission filter of Quasar's instrumentor and the pass-through
    rule built on it.

    Before a class is handed to the bytecode rewriter, the instrumentor asks
    whether the class may be instrumented at all. The answer depends on the
    class name only (in internal, slashed spelling) and on four inputs that
    live elsewhere in the system; they are parameters here:
      - whether the process runs under unit tests (`Debug.isUnitTest()`),
      - the internal names of the fiber class and of its stack class,
      - the method database's judgement of which classes belong to the
        Java platform core.
    A class that the filter rejects is returned byte for byte; an accepted
    one goes through the rewriter, which is an opaque function here.
 */
module Instrumentor {
  import opened ClassNames

  /** One byte of a class file, as an unsigned value; the bytes are never
      interpreted here, so the signedness of the JVM's byte type is immaterial. */
  newtype uint8 = b: int | 0 <= b < 256

  /** The inputs of the filter that are defined outside the instrumentor.
      The unit-test switch and the platform-core test are taken to be pure
      and total: the filter consults them only when the earlier tests have
      not already decided (the switch only for names under the instrumentor's
      package, the core test only when no other rule fired), and treating
      them as values is what makes the order of the rules immaterial. */
  datatype Environment = Environment(
    unitTest: bool,              // the process runs under unit tests
    coroutineName: string,       // internal name of the fiber class
    stackName: string,           // internal name of the fiber stack class
    isJavaCore: string -> bool   // the platform-core test of the method database
  )

  /** The instrumentor's own package; instrumenting it is allowed only while
      the process runs under unit tests. */
  const InstrumentorPrefix: string := "co/paralleluniverse/fibers/instrument/"
  /** The bytecode library the instrumentor is built on. */
  const AsmPrefix: string := "org/objectweb/asm/"
  /** The NetBeans library packages, which the filter excludes. */
  const NetBeansPrefix: string := "org/netbeans/lib/"

  /** The exclusion rules, in the order the filter tries them. */
  datatype Exclusion =
    | InstrumentorPackage
    | AsmPackage
    | NetBeansPackage
    | CoroutineClass
    | StackClass
    | JavaCore

  /** Whether `rule` excludes the class whose internal name is `name`. */
  predicate Fires(env: Environment, rule: Exclusion, name: string) {
    match rule
    case InstrumentorPackage => InstrumentorPrefix <= name && !env.unitTest
    case AsmPackage => AsmPrefix <= name
    case NetBeansPackage => NetBeansPrefix <= name
    case CoroutineClass => name == env.coroutineName || env.coroutineName + ['$'] <= name
    case StackClass => name == env.stackName
    case JavaCore => env.isJavaCore(name)
  }

  /** The admission filter: normalise the name, then reject it as soon as one
      exclusion rule fires, trying the rules in source order. Whatever that
      order, a class is admitted exactly when no rule fires on its internal
      name. */
  function ShouldInstrument(env: Environment, className: string): (r: bool)
    ensures r <==> forall rule :: !Fires(env, rule, Normalize(className))
  {
    var name := Normalize(className);
    if Fires(env, InstrumentorPackage, name) then false
    else if Fires(env, AsmPackage, name) then false
    else if Fires(env, NetBeansPackage, name) then false
    else if Fires(env, CoroutineClass, name) then false
    else if Fires(env, StackClass, name) then false
    else if Fires(env, JavaCore, name) then false
    else true
  }

  /** The public entry point for a class given as bytes: normalise the name,
      and either rewrite the class or hand the input back unchanged. The
      rewriter is a parameter standing for one rewrite against a fixed state
      of the method database and a fixed checking switch; it is only ever
      called on admitted classes, and always with the internal spelling of
      the name. */
  function InstrumentClass(env: Environment, rewrite: (string, seq<uint8>) -> seq<uint8>,
                           className: string, data: seq<uint8>): (r: seq<uint8>)
    ensures !ShouldInstrument(env, className) ==> r == data
    ensures ShouldInstrument(env, className) ==> r == rewrite(Normalize(className), data)
  {
    var name := Normalize(className);
    ShouldInstrumentSpellingInvariant(env, className);
    if ShouldInstrument(env, name) then rewrite(name, data) else data
  }

  /** The dotted and slashed spellings of a class get the same answer; in
      particular normalising a name before filtering it changes nothing. */
  lemma ShouldInstrumentSpellingInvariant(env: Environment, className: string)
    ensures ShouldInstrument(env, Normalize(className)) == ShouldInstrument(env, className)
  {
    NormalizeIdempotent(className);
  }

  /** More generally, any two spellings of one class get the same answer. */
  lemma ShouldInstrumentSameClass(env: Environment, a: string, b: string)
    requires SameClass(a, b)
    ensures ShouldInstrument(env, a) == ShouldInstrument(env, b)
  {
    NormalizeIdentifiesSameClass(a, b);
  }

  /** The bytecode library and the NetBeans library packages are never
      instrumented, whatever the environment. */
  lemma ToolingPackagesRejected(env: Environment, className: string)
    requires AsmPrefix <= Normalize(className) || NetBeansPrefix <= Normalize(className)
    ensures !ShouldInstrument(env, className)
  {
  }

  /** The same holds for names written in dotted spelling: normalisation
      maps the dotted package prefix onto the slashed one. */
  lemma DottedToolingPackagesRejected(env: Environment, className: string)
    requires "org.objectweb.asm." <= className || "org.netbeans.lib." <= className
    ensures !ShouldInstrument(env, className)
  {
  }

  /** Outside unit-test mode the instrumentor's own package is rejected. */
  lemma InstrumentorPackageRejected(env: Environment, className: string)
    requires !env.unitTest && InstrumentorPrefix <= Normalize(className)
    ensures !ShouldInstrument(env, className)
  {
  }

  /** In unit-test mode the package rule is switched off and the remaining
      rules alone decide. */
  lemma UnitTestModeDecidedByOtherRules(env: Environment, className: string)
    requires env.unitTest
    ensures ShouldInstrument(env, className)
        <==> forall rule | rule != InstrumentorPackage :: !Fires(env, rule, Normalize(className))
  {
  }

  /** Unit-test mode only admits more classes, and it admits exactly the
      classes of the instrumentor's package that the other rules let
      through in addition. */
  lemma UnitTestModeAdmitsMore(env: Environment, className: string)
    ensures ShouldInstrument(env.(unitTest := false), className)
        ==> ShouldInstrument(env.(unitTest := true), className)
    ensures ShouldInstrument(env.(unitTest := true), className)
        && !ShouldInstrument(env.(unitTest := false), className)
        <==> ShouldInstrument(env.(unitTest := true), className)
             && InstrumentorPrefix <= Normalize(className)
  {
  }

  /** The fiber class and every class nested in it are rejected. */
  lemma CoroutineAndNestedRejected(env: Environment, className: string, suffix: string)
    requires Normalize(className) == env.coroutineName
          || Normalize(className) == env.coroutineName + ['$'] + suffix
    ensures !ShouldInstrument(env, className)
  {
  }

  /** The stack class itself is rejected, but only on exact equality: the
      stack rule never fires on a class nested in the stack class, which is
      therefore decided by the remaining rules. */
  lemma StackRuleExactOnly(env: Environment, className: string, suffix: string)
    ensures Normalize(className) == env.stackName ==> !ShouldInstrument(env, className)
    ensures Normalize(className) == env.stackName + ['$'] + suffix
        ==> (ShouldInstrument(env, className)
             <==> forall rule | rule != StackClass :: !Fires(env, rule, Normalize(className)))
  {
  }

  /** An environment in which the asymmetry between the two rules shows:
      a nested class of the fiber class is rejected while the same nesting
      under the stack class is admitted. The constant values are
      illustrative; the real ones are not part of this model. */
  function DemoEnvironment(): Environment {
    Environment(false, "demo/Coroutine", "demo/Stack", (name: string) => false)
  }

  /** Nesting under the stack class does not trigger the stack rule. */
  lemma NestedStackClassAdmitted()
    ensures ShouldInstrument(DemoEnvironment(), "demo.Stack$Frame")
  {
    var env := DemoEnvironment();
    var name := Normalize("demo.Stack$Frame");
    assert name == "demo/Stack$Frame";
    assert !Fires(env, CoroutineClass, name) by {
      assert name[5] != (env.coroutineName + ['$'])[5];
    }
    assert !Fires(env, StackClass, name) by {
      assert |name| != |env.stackName|;
    }
  }

  /** Nesting under the fiber class does trigger the fiber rule. */
  lemma NestedCoroutineClassRejected()
    ensures !ShouldInstrument(DemoEnvironment(), "demo.Coroutine$Frame")
  {
  }

  /** A rejected class is passed through untouched whatever the rewriter
      would have done: the rewriter is not consulted at all. */
  lemma RejectedIndependentOfRewriter(env: Environment, rw1: (string, seq<uint8>) -> seq<uint8>,
                                      rw2: (string, seq<uint8>) -> seq<uint8>,
                                      className: string, data: seq<uint8>)
    requires !ShouldInstrument(env, className)
    ensures InstrumentClass(env, rw1, className, data) == data
    ensures InstrumentClass(env, rw1, className, data) == InstrumentClass(env, rw2, className, data)
  {
  }

  /** Dotted and slashed spellings of a name produce the same bytes when
      rewritten against the same database state, and the rewriter sees the
      same internal name for both. */
  lemma InstrumentClassSpellingInvariant(env: Environment, rewrite: (string, seq<uint8>) -> seq<uint8>,
                                         a: string, b: string, data: seq<uint8>)
    requires SameClass(a, b)
    ensures InstrumentClass(env, rewrite, a, data) == InstrumentClass(env, rewrite, b, data)
  {
    NormalizeIdentifiesSameClass(a, b);
    ShouldInstrumentSameClass(env, a, b);
  }
}
