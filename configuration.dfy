/** The generator's configuration: its strings files, its tasks and the case style of the keys. */
module Configuration {
  import opened Wrappers

  datatype CaseStyle = CamelCaseStyle | KebabCase | SnakeCase {
    /** The character that separates the words of a key, if the style has one. */
    function Delimiter(): (r: Option<char>)
      ensures r.None? <==> this == CamelCaseStyle
      ensures r == Some('-') <==> this == KebabCase
      ensures r == Some('_') <==> this == SnakeCase
    {
      match this
      case CamelCaseStyle => None
      case KebabCase => Some('-')
      case SnakeCase => Some('_')
    }
  }

  datatype TaskType =
    | GenerateSwiftUIMapping
    | GenerateSwiftUIMappingLibrary
    | GenerateNSLocalizedStringMapping
    | GenerateNSLocalizedStringMappingLibrary
    | RewriteTranslationFiles
    | GenerateInputXcFileList
    | GenerateOutputXcFileList
  {
    predicate IsMapping() {
      this in {GenerateSwiftUIMapping, GenerateSwiftUIMappingLibrary, GenerateNSLocalizedStringMapping, GenerateNSLocalizedStringMappingLibrary}
    }
  }

  datatype Task = Task(taskType: TaskType, output: Option<string>)

  datatype Config = Config(stringsFiles: seq<string>, tasks: seq<Task>, inputCaseStyle: Option<CaseStyle>) {

    /** The case style of the keys: kebab case unless the configuration names one. */
    function KeyCaseStyle(): (r: CaseStyle)
      ensures inputCaseStyle.Some? ==> r == inputCaseStyle.value
      ensures inputCaseStyle.None? ==> r == KebabCase
    {
      inputCaseStyle.GetOr(KebabCase)
    }

    /** The files the tasks read: every strings file. */
    function InputFiles(): (r: set<string>)
      ensures forall f :: f in r <==> exists i :: 0 <= i < |stringsFiles| && stringsFiles[i] == f
    {
      set f | f in stringsFiles
    }

    /** What `rewriteTranslationFiles` demands: a primary file when such a task exists. */
    predicate OutputFilesDefined() {
      (exists i :: 0 <= i < |tasks| && tasks[i].taskType == RewriteTranslationFiles) ==> |stringsFiles| >= 1
    }

    /** The files one task writes, or nothing. */
    function TaskOutputs(task: Task): Option<seq<string>>
      requires task.taskType == RewriteTranslationFiles ==> |stringsFiles| >= 1
    {
      match task.taskType
      case RewriteTranslationFiles => Some(stringsFiles[1..])
      case GenerateInputXcFileList => None
      case GenerateOutputXcFileList => None
      case _ => if task.output.Some? then Some([task.output.value]) else None
    }

    /** `compactMap` over the tasks, then `reduce([], +)`. */
    function AllOutputs(ts: seq<Task>): seq<string>
      requires forall i :: 0 <= i < |ts| && ts[i].taskType == RewriteTranslationFiles ==> |stringsFiles| >= 1
      decreases |ts|
    {
      if |ts| == 0 then []
      else
        var last := ts[|ts| - 1];
        AllOutputs(ts[..|ts| - 1]) + TaskOutputs(last).GetOr([])
    }

    /** The files the tasks write. */
    function OutputFiles(): set<string>
      requires OutputFilesDefined()
    {
      set f | f in AllOutputs(tasks)
    }

    /** A file is written exactly when a mapping task names it as its output,
        or a rewrite task exists and it is a strings file other than the first. */
    lemma OutputFilesMembership(f: string)
      requires OutputFilesDefined()
      ensures f in OutputFiles() <==>
        exists i :: 0 <= i < |tasks| && Writes(tasks[i], f)
    {
      AllOutputsMembership(tasks, f);
    }

    predicate Writes(task: Task, f: string) {
      || (task.taskType.IsMapping() && task.output == Some(f))
      || (task.taskType == RewriteTranslationFiles && exists j :: 1 <= j < |stringsFiles| && stringsFiles[j] == f)
    }

    lemma {:induction false} AllOutputsMembership(ts: seq<Task>, f: string)
      requires forall i :: 0 <= i < |ts| && ts[i].taskType == RewriteTranslationFiles ==> |stringsFiles| >= 1
      ensures f in AllOutputs(ts) <==> exists i :: 0 <= i < |ts| && Writes(ts[i], f)
      decreases |ts|
    {
      if |ts| > 0 {
        var init := ts[..|ts| - 1];
        AllOutputsMembership(init, f);
        if f in AllOutputs(ts) && f !in AllOutputs(init) {
          assert Writes(ts[|ts| - 1], f);
        }
        if exists i :: 0 <= i < |ts| && Writes(ts[i], f) {
          var i :| 0 <= i < |ts| && Writes(ts[i], f);
          if i < |ts| - 1 {
            assert init[i] == ts[i];
          }
        }
      }
    }
  }
}
