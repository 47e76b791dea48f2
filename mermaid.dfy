/**
  The fixed Mermaid text both generators fill in: the diagram header, one
  inheritance line per parent, one line per attribute and per method, and the
  class block that holds them.
*/
module Mermaid {
  import opened Text

  /** The diagram template with its `{name}` field set to the title. */
  function Header(title: string): string {
    "---\ntitle: " + title + "\n---\nclassDiagram\n"
  }

  /** `f"{class_name} <|-- {parent}\n"` */
  function Connection(child: string, parent: string): string {
    child + " <|-- " + parent + "\n"
  }

  /** `f"{name}: {type}\n"` */
  function AttributeLine(name: string, typeLabel: string): string {
    name + ": " + typeLabel + "\n"
  }

  /** `f"{name}()\n"` */
  function MethodLine(name: string): string {
    name + "()\n"
  }

  /** The connection lines of one class, accumulated parent by parent. */
  function Connections(child: string, parents: seq<string>): string {
    if parents == [] then ""
    else Connections(child, parents[..|parents| - 1]) + Connection(child, parents[|parents| - 1])
  }

  /** The method lines of one class, accumulated method by method. */
  function MethodLines(names: seq<string>): string {
    if names == [] then ""
    else MethodLines(names[..|names| - 1]) + MethodLine(names[|names| - 1])
  }

  /** The class template with its four fields filled in. */
  function ClassBlock(name: string, connections: string, attributes: string, methods: string): string {
    "\n" + connections + "\nclass " + name + " { \n" + attributes + "\n" + methods + "\n}\n"
  }

  /** Every parent name gets its own inheritance line. */
  lemma {:induction false} ConnectionPresent(child: string, parents: seq<string>, k: nat)
    requires k < |parents|
    ensures Contains(Connections(child, parents), Connection(child, parents[k]))
  {
    var init := parents[..|parents| - 1];
    if k == |parents| - 1 {
      ContainsSuffix(Connections(child, init), Connection(child, parents[k]));
    } else {
      ConnectionPresent(child, init, k);
      ContainsExtend(Connections(child, init), Connection(child, parents[|parents| - 1]),
                     Connection(child, parents[k]));
    }
  }

  /** Connection lines for two parent lists, one after the other. */
  lemma {:induction false} ConnectionsAppend(child: string, a: seq<string>, b: seq<string>)
    ensures Connections(child, a + b) == Connections(child, a) + Connections(child, b)
    decreases |b|
  {
    if b == [] {
      assert a + b == a;
    } else {
      var b' := b[..|b| - 1];
      ConnectionsAppend(child, a, b');
      SnocSplit(a, b);
    }
  }

  /** The method lines end in their last method's "()\n". */
  lemma MethodLinesEnd(names: seq<string>)
    requires names != []
    ensures |MethodLines(names)| >= 3
    ensures MethodLines(names)[|MethodLines(names)| - 3..] == "()\n"
  {
    var s := MethodLines(names);
    var last := MethodLine(names[|names| - 1]);
    assert s == MethodLines(names[..|names| - 1]) + last;
    assert s[|s| - 3..] == last[|last| - 3..];
  }

  /** The method lines start with the first method's name. */
  lemma {:induction false} MethodLinesStart(names: seq<string>)
    requires names != []
    ensures |MethodLines(names)| >= |names[0]| + 3
    ensures MethodLines(names)[..|names[0]| + 3] == names[0] + "()\n"
    decreases |names|
  {
    var init := names[..|names| - 1];
    if init != [] {
      MethodLinesStart(init);
      assert init[0] == names[0];
    }
  }

  /**
    With identifiers for method names, `strip()` removes just the final line
    break of the method lines, and nothing of an empty method list.
  */
  lemma StripMethodLines(names: seq<string>)
    requires forall i :: 0 <= i < |names| ==> NoSpace(names[i])
    ensures names == [] ==> Strip(MethodLines(names)) == ""
    ensures names != [] ==> Strip(MethodLines(names)) == MethodLines(names)[..|MethodLines(names)| - 1]
  {
    if names != [] {
      var s := MethodLines(names);
      MethodLinesStart(names);
      MethodLinesEnd(names);
      assert !IsSpace(s[0]) by {
        if names[0] == [] {
          assert s[0] == '(';
        } else {
          assert s[0] == names[0][0];
        }
      }
      StripCallLines(s);
    }
  }

  /** `strip()` of a text that starts with no whitespace and ends in ")\n" drops only the line break. */
  lemma StripCallLines(s: string)
    requires |s| >= 2 && !IsSpace(s[0]) && s[|s| - 1] == '\n' && s[|s| - 2] == ')'
    ensures Strip(s) == s[..|s| - 1]
  {
    assert TrimStart(s) == s;
    var t := s[..|s| - 1];
    assert IsSpace(s[|s| - 1]);
    assert TrimEnd(s) == TrimEnd(t);
    assert t[|t| - 1] == ')';
    assert !IsSpace(t[|t| - 1]);
  }

  /** Every method name gets its own line. */
  lemma {:induction false} MethodPresent(names: seq<string>, k: nat)
    requires k < |names|
    ensures Contains(MethodLines(names), MethodLine(names[k]))
  {
    var init := names[..|names| - 1];
    if k == |names| - 1 {
      ContainsSuffix(MethodLines(init), MethodLine(names[k]));
    } else {
      MethodPresent(init, k);
      ContainsExtend(MethodLines(init), MethodLine(names[|names| - 1]), MethodLine(names[k]));
    }
  }

  /** A class block shows its connection, attribute and method text. */
  lemma ClassBlockShows(name: string, connections: string, attributes: string, methods: string, sub: string)
    requires Contains(connections, sub) || Contains(attributes, sub) || Contains(methods, sub)
    ensures Contains(ClassBlock(name, connections, attributes, methods), sub)
  {
    var b := ClassBlock(name, connections, attributes, methods);
    if Contains(connections, sub) {
      assert b == "\n" + connections + ("\nclass " + name + " { \n" + attributes + "\n" + methods + "\n}\n");
      ContainsInfix("\n", connections, "\nclass " + name + " { \n" + attributes + "\n" + methods + "\n}\n", sub);
    } else if Contains(attributes, sub) {
      assert b == ("\n" + connections + "\nclass " + name + " { \n") + attributes + ("\n" + methods + "\n}\n");
      ContainsInfix("\n" + connections + "\nclass " + name + " { \n", attributes, "\n" + methods + "\n}\n", sub);
    } else {
      assert b == ("\n" + connections + "\nclass " + name + " { \n" + attributes + "\n") + methods + "\n}\n";
      ContainsInfix("\n" + connections + "\nclass " + name + " { \n" + attributes + "\n", methods, "\n}\n", sub);
    }
  }
}
