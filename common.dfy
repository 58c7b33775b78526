/** The greeting helper of customfunctions/common.py. */
module Common {

  const Greeting: string := "Hello "

  /** `print_hello(name)`: the f-string `"Hello {name}!"`. The greeting is
      the prefix "Hello ", then the name unchanged, then a single "!". */
  function PrintHello(name: string): (r: string)
    ensures |r| == |name| + 7
    ensures r[..6] == Greeting && r[|r| - 1] == '!'
    ensures r[6..|r| - 1] == name
  {
    Greeting + name + "!"
  }

  /** Different names never produce the same greeting. */
  lemma PrintHelloInjective(a: string, b: string)
    requires PrintHello(a) == PrintHello(b)
    ensures a == b
  {
  }
}
