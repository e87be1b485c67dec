# Quasar instrumentor: class admission filter and pass-through

Quasar implements lightweight threads (fibers) on the JVM by rewriting the
bytecode of methods that may suspend. `QuasarInstrumentor` is the entry
point the class-loading agent and the build-time tools call with a class
name and the class file bytes. Before any rewriting happens it decides,
from the class name alone, whether the class may be instrumented at all.
Classes it turns away come back byte for byte.

This project models that decision and the pass-through rule built on it:

- `class_names.dfy`, module `ClassNames`: the normalisation of a class name
  from binary spelling (`a.b.C`) to internal spelling (`a/b/C`). It also
  holds the facts the filter relies on: the normalisation preserves length
  and positions, leaves no dot, is idempotent, and identifies exactly the
  spellings of one class.
- `instrumentor.dfy`, module `Instrumentor`: the six exclusion rules
  (`Fires`), the filter `ShouldInstrument` (the rules in source order) and
  the byte-level entry point `InstrumentClass`.

Some inputs of the filter are defined outside this class. They are
parameters of the model, gathered in `Environment`:

- the unit-test switch (`Debug.isUnitTest()`): whether the process runs under unit tests;
- the internal names of the fiber class and of the fiber stack class
  (`Classes.COROUTINE_NAME`, `Classes.STACK_NAME`);
- the platform-core test of the method database (`MethodDatabase.isJavaCore`),
  a function from names to booleans.

The unit-test switch and the platform-core test are treated as pure, total
values. The source consults the switch only for names under the
instrumentor's own package, and the core test only when no other rule fired;
with pure inputs this makes the order of the rules immaterial.

The bytecode rewrite (reading the class, running the instrumenting visitor
and writing the result) is a function parameter `rewrite` of
`InstrumentClass`. It receives the internal name and the input bytes.

## Model

| member | source | states |
|---|---|---|
| ClassNames.Normalize | quasar-core/src/main/java/co/paralleluniverse/fibers/instrument/QuasarInstrumentor.java:49 | the result has the input's length, has `/` wherever the input has `.`, and keeps every other character in place |
| ClassNames.NormalizeIsSlashed | quasar-core/src/main/java/co/paralleluniverse/fibers/instrument/QuasarInstrumentor.java:49 | no `.` survives normalisation |
| ClassNames.NormalizeFixesExactlySlashed | quasar-core/src/main/java/co/paralleluniverse/fibers/instrument/QuasarInstrumentor.java:49 | normalisation leaves a name unchanged if and only if the name contains no `.` |
| ClassNames.NormalizeIdempotent | quasar-core/src/main/java/co/paralleluniverse/fibers/instrument/QuasarInstrumentor.java:66-67 | normalising twice equals normalising once, so the normalisation at line 66 followed by the one at line 49 is harmless |
| ClassNames.NormalizePrefix | quasar-core/src/main/java/co/paralleluniverse/fibers/instrument/QuasarInstrumentor.java:49-55 | a prefix of a name normalises to a prefix of the normalised name, so prefix tests carry over from the dotted spelling |
| ClassNames.NormalizeIdentifiesSameClass | quasar-core/src/main/java/co/paralleluniverse/fibers/instrument/QuasarInstrumentor.java:49 | two names have the same normal form if and only if they agree everywhere except for `.`/`/` exchanges |
| Instrumentor.Fires | quasar-core/src/main/java/co/paralleluniverse/fibers/instrument/QuasarInstrumentor.java:50-60 | each rule fires exactly on the condition of its line: the instrumentor package prefix outside unit-test mode, the ASM and NetBeans package prefixes, the fiber name or a name starting with the fiber name followed by `$`, equality with the stack name, and the platform-core test |
| Instrumentor.ShouldInstrument | quasar-core/src/main/java/co/paralleluniverse/fibers/instrument/QuasarInstrumentor.java:48-63 | a class is admitted if and only if none of the six exclusion rules fires on its normalised name; the order of the checks does not matter |
| Instrumentor.ShouldInstrumentSpellingInvariant | quasar-core/src/main/java/co/paralleluniverse/fibers/instrument/QuasarInstrumentor.java:48-49 | the filter gives the same answer for a name and for its normalised form |
| Instrumentor.ShouldInstrumentSameClass | quasar-core/src/main/java/co/paralleluniverse/fibers/instrument/QuasarInstrumentor.java:48-49 | any two spellings of one class get the same answer |
| Instrumentor.ToolingPackagesRejected | quasar-core/src/main/java/co/paralleluniverse/fibers/instrument/QuasarInstrumentor.java:52-55 | every name whose normal form starts with `org/objectweb/asm/` or `org/netbeans/lib/` is rejected in every environment |
| Instrumentor.DottedToolingPackagesRejected | quasar-core/src/main/java/co/paralleluniverse/fibers/instrument/QuasarInstrumentor.java:49-55 | the same holds for names that start with the dotted spellings `org.objectweb.asm.` or `org.netbeans.lib.` |
| Instrumentor.InstrumentorPackageRejected | quasar-core/src/main/java/co/paralleluniverse/fibers/instrument/QuasarInstrumentor.java:50-51 | outside unit-test mode every name under `co/paralleluniverse/fibers/instrument/` is rejected |
| Instrumentor.UnitTestModeDecidedByOtherRules | quasar-core/src/main/java/co/paralleluniverse/fibers/instrument/QuasarInstrumentor.java:50-62 | in unit-test mode the package rule never fires, and a name is admitted if and only if none of the other five rules fires |
| Instrumentor.UnitTestModeAdmitsMore | quasar-core/src/main/java/co/paralleluniverse/fibers/instrument/QuasarInstrumentor.java:50-51 | turning unit-test mode on never rejects a name that was admitted; the names it admits in addition are exactly the admitted names under the instrumentor's own package |
| Instrumentor.CoroutineAndNestedRejected | quasar-core/src/main/java/co/paralleluniverse/fibers/instrument/QuasarInstrumentor.java:56-57 | the fiber class and every name starting with the fiber class name followed by `$` are rejected |
| Instrumentor.StackRuleExactOnly | quasar-core/src/main/java/co/paralleluniverse/fibers/instrument/QuasarInstrumentor.java:58-59 | the stack class is rejected, but on a name of the form stack name + `$` + suffix the admission is decided by the other five rules alone |
| Instrumentor.NestedStackClassAdmitted | quasar-core/src/main/java/co/paralleluniverse/fibers/instrument/QuasarInstrumentor.java:58-59 | in a concrete environment a class nested in the stack class (`demo.Stack$Frame`) is admitted |
| Instrumentor.NestedCoroutineClassRejected | quasar-core/src/main/java/co/paralleluniverse/fibers/instrument/QuasarInstrumentor.java:56-57 | in the same environment the same nesting under the fiber class (`demo.Coroutine$Frame`) is rejected |
| Instrumentor.InstrumentClass | quasar-core/src/main/java/co/paralleluniverse/fibers/instrument/QuasarInstrumentor.java:65-68 | a rejected class comes back exactly as given; an admitted one is the rewriter's output for the normalised name and the input bytes |
| Instrumentor.RejectedIndependentOfRewriter | quasar-core/src/main/java/co/paralleluniverse/fibers/instrument/QuasarInstrumentor.java:67 | for a rejected class the result is the input bytes whatever the rewriter is, so the rewriter is not consulted |
| Instrumentor.InstrumentClassSpellingInvariant | quasar-core/src/main/java/co/paralleluniverse/fibers/instrument/QuasarInstrumentor.java:65-67 | two spellings of one class yield the same output bytes when rewritten at the same database state |

## Left out

- The bytecode pipeline (`quasar-core/src/main/java/co/paralleluniverse/fibers/instrument/QuasarInstrumentor.java:75-104`): the `TRANSFORM` log line with its method-database lookups (`quasar-core/src/main/java/co/paralleluniverse/fibers/instrument/QuasarInstrumentor.java:76`), class reader, writer, checking and tracing adapters and the instrumenting visitor. These are calls into the ASM library and into classes that are not part of this model. The pipeline is reduced to the opaque `rewrite` parameter.
- The stream overload `instrumentClass(String, FileInputStream)` (`quasar-core/src/main/java/co/paralleluniverse/fibers/instrument/QuasarInstrumentor.java:70-73`): it reads the class from a file, normalises the name and rewrites unconditionally, without consulting the filter.
- The dump of the transformed class to a `.class` file and the re-check of the output (`quasar-core/src/main/java/co/paralleluniverse/fibers/instrument/QuasarInstrumentor.java:87-100`). Both run only when the compile-time constant `EXAMINED_CLASS` is non-null, and it is null.
- `checkClass(File)` (`quasar-core/src/main/java/co/paralleluniverse/fibers/instrument/QuasarInstrumentor.java:152-154`), the configuration setters `setAllowMonitors`, `setAllowBlocking`, `setLog`, `setVerbose` and `setDebug`, and `log`, `error` and `getWorkList` (`quasar-core/src/main/java/co/paralleluniverse/fibers/instrument/QuasarInstrumentor.java:115-150`). They only delegate to the method database. The two policy setters affect the result of a rewrite only through the method database's state, which the `Instrumentor.InstrumentClass` line below holds fixed.
- `getMethodDatabase` (`quasar-core/src/main/java/co/paralleluniverse/fibers/instrument/QuasarInstrumentor.java:106-108`): a plain getter.
- `setCheck` (`quasar-core/src/main/java/co/paralleluniverse/fibers/instrument/QuasarInstrumentor.java:110-113`): it sets a flag on the instrumentor that only the left-out bytecode pipeline (`quasar-core/src/main/java/co/paralleluniverse/fibers/instrument/QuasarInstrumentor.java:75-104`) reads.
- Instrumentor.InstrumentClass: `rewrite` stands for one call against a fixed state of the method database and a fixed `check` setting. The source's result also depends on both. Exceptions the rewrite can throw are not modelled: `ClassReader` on malformed bytes, the checking adapter, the instrumenting visitor (`quasar-core/src/main/java/co/paralleluniverse/fibers/instrument/QuasarInstrumentor.java:67`, `quasar-core/src/main/java/co/paralleluniverse/fibers/instrument/QuasarInstrumentor.java:78`, `quasar-core/src/main/java/co/paralleluniverse/fibers/instrument/QuasarInstrumentor.java:84`).
- Java strings are sequences of UTF-16 code units and may hold unpaired surrogates; Dafny strings are sequences of Unicode scalar values, so such names are not representable. The filter's tests are ASCII prefix and equality tests and behave the same on well-formed names.
- The internals of `MethodDatabase.isJavaCore`, `Classes.COROUTINE_NAME`, `Classes.STACK_NAME` and `Debug.isUnitTest`. These definitions are not part of this model and are parameters. The constants in `DemoEnvironment` are illustrative values.
- A null class name or a null byte array: Java throws on a null name; a null array is returned as is for a rejected class and makes the class reader throw for an admitted one. The model's names and byte sequences are never null.
- The method database's suspendability fixpoint and the method-body transformation into a resumable state machine. Their source files are not part of this model.
