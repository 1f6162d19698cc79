/**
  The standalone script `test-autoload.php`: it checks that Composer's
  autoloader is installed, then asks for each of seven framework classes
  whether it can be loaded, prints one pass or fail line per class and exits
  with 0 when every class was found and 1 otherwise.

  The file-system test and PHP's `class_exists` are inputs here: a flag that
  says whether the autoloader file exists, and the set of loadable class
  names. Each `echo` statement contributes one element to the output.
 */
module AutoloadTest {

  /** One entry of `$classes_to_test`: a fully qualified class name and the
      label printed for it. */
  datatype ClassEntry = ClassEntry(name: string, description: string)

  /** `$classes_to_test`, in the order the script checks it. */
  function ClassesToTest(): (r: seq<ClassEntry>)
    ensures |r| == 7
    ensures forall i, j :: 0 <= i < j < |r| ==> r[i].name != r[j].name
  {
    [ ClassEntry("PowerPlugins\\Core\\Component", "Component (Base)"),
      ClassEntry("PowerPlugins\\Core\\Settings\\SettingsCore", "Settings Core"),
      ClassEntry("PowerPlugins\\Core\\Post\\Post", "Post"),
      ClassEntry("PowerPlugins\\Core\\Post\\PostController", "Post Controller"),
      ClassEntry("PowerPlugins\\Core\\Term\\Term", "Term"),
      ClassEntry("PowerPlugins\\Core\\Term\\TermController", "Term Controller"),
      ClassEntry("PowerPlugins\\Core\\MetaBox\\MetaBox", "Meta Box") ]
  }

  /** The check mark and the cross the script prints. */
  const PassMark: char := '\U{2705}'
  const FailMark: char := '\U{274C}'

  const NotFoundSuffix: string := " - NOT FOUND\n"

  predicate EndsWith(s: string, suffix: string)
  {
    |suffix| <= |s| && s[|s| - |suffix|..] == suffix
  }

  /** Whether every listed class can be loaded. */
  predicate AllLoaded(loaded: set<string>)
  {
    forall k :: 0 <= k < |ClassesToTest()| ==> ClassesToTest()[k].name in loaded
  }

  /** `__DIR__ . '/vendor/autoload.php'`. */
  function AutoloadPath(dir: string): (path: string)
    ensures |path| > |dir| && path[..|dir|] == dir
    ensures EndsWith(path, "/vendor/autoload.php")
  {
    dir + "/vendor/autoload.php"
  }

  /** The two lines printed when the autoloader file is missing. */
  function MissingAutoloaderLines(dir: string): (lines: seq<string>)
    ensures |lines| == 2
    ensures |lines[0]| > 0 && lines[0][0] == FailMark
    ensures EndsWith(lines[0], AutoloadPath(dir) + "\n")
  {
    [[FailMark] + " ERROR: Composer autoloader not found at: " + AutoloadPath(dir) + "\n",
     "   Run 'composer install' first.\n"]
  }

  const Header: string := "Testing Power Plugins Core class autoloading...\n\n"

  /** The line printed for one class: it opens with the check mark exactly
      when the class was found, names the class's label right after the mark,
      and ends in " - NOT FOUND" exactly when it was not found. */
  function ResultLine(c: ClassEntry, found: bool): (line: string)
    ensures |line| > 2 + |c.description|
    ensures line[0] == PassMark <==> found
    ensures line[0] == FailMark <==> !found
    ensures line[2..2 + |c.description|] == c.description
    ensures EndsWith(line, NotFoundSuffix) <==> !found
  {
    if found then
      var line := [PassMark, ' '] + c.description + " (" + c.name + ")\n";
      assert line[|line| - 2] == ')';
      assert NotFoundSuffix[|NotFoundSuffix| - 2] == 'D';
      line
    else
      [FailMark, ' '] + c.description + " (" + c.name + ")" + NotFoundSuffix
  }

  /** What the script prints after the per-class lines and the blank line. */
  function Summary(allPassed: bool): (lines: seq<string>)
    ensures |lines| == if allPassed then 7 else 1
    ensures |lines[0]| > 0
    ensures lines[0][0] == PassMark <==> allPassed
    ensures lines[0][0] == FailMark <==> !allPassed
  {
    if allPassed then
      [[PassMark] + " All classes loaded successfully!\n",
       "\nNamespace structure verified:\n",
       "  PowerPlugins\\Core\\Component\n",
       "  PowerPlugins\\Core\\Settings\\SettingsCore\n",
       "  PowerPlugins\\Core\\Post\\{Post, PostController}\n",
       "  PowerPlugins\\Core\\Term\\{Term, TermController}\n",
       "  PowerPlugins\\Core\\MetaBox\\MetaBox\n"]
    else
      [[FailMark] + " Some classes failed to load.\n"]
  }

  /** The whole script. Without the autoloader it prints the error and exits
      with 1 before looking at any class. Otherwise it prints the header, then
      exactly one result line per listed class in list order, a blank line and
      the summary, and exits with 0 exactly when every class was found. */
  method RunAutoloadTest(dir: string, autoloaderPresent: bool, loaded: set<string>)
    returns (output: seq<string>, exitCode: int)
    ensures exitCode == 0 || exitCode == 1
    ensures !autoloaderPresent ==> output == MissingAutoloaderLines(dir) && exitCode == 1
    ensures autoloaderPresent ==> (exitCode == 0 <==> AllLoaded(loaded))
    ensures autoloaderPresent ==>
              |output| == 2 + |ClassesToTest()| + |Summary(exitCode == 0)| &&
              output[0] == Header &&
              output[1 + |ClassesToTest()|] == "\n" &&
              output[2 + |ClassesToTest()|..] == Summary(exitCode == 0)
    ensures autoloaderPresent ==>
              forall k :: 0 <= k < |ClassesToTest()| ==>
                output[1 + k] == ResultLine(ClassesToTest()[k], ClassesToTest()[k].name in loaded)
  {
    if !autoloaderPresent {
      output := MissingAutoloaderLines(dir);
      exitCode := 1;
      return;
    }
    output := [Header];
    var classes := ClassesToTest();
    var allPassed := true;
    for i := 0 to |classes|
      invariant |output| == 1 + i
      invariant output[0] == Header
      invariant forall k :: 0 <= k < i ==> output[1 + k] == ResultLine(classes[k], classes[k].name in loaded)
      invariant allPassed <==> forall k :: 0 <= k < i ==> classes[k].name in loaded
    {
      if classes[i].name in loaded {
        output := output + [ResultLine(classes[i], true)];
      } else {
        output := output + [ResultLine(classes[i], false)];
        allPassed := false;
      }
    }
    output := output + ["\n"];
    if allPassed {
      output := output + Summary(true);
      exitCode := 0;
    } else {
      output := output + Summary(false);
      exitCode := 1;
    }
  }
}
