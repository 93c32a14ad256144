# Hexalib brush model

Hexalib is a small teaching library. It opens a window that applications draw
shapes on. A `MainWindow.Brush` parameterises every drawing call. It holds a
colour (three components in 0..255) and a style: an opaque brush fills shapes,
any other brush draws only their outlines.

A brush stores its style as a reference, not as a boolean. The field
`opaqueBrush` is the brush's opaque counterpart:

- it is the brush itself when the brush is opaque;
- it is `null` while the counterpart of a non-opaque brush has not been asked for;
- afterwards it holds that counterpart, a separate opaque brush of the same colour.

`asOpaque` fills this cache lazily.

This project models that class in Dafny:

- `main_window.dfy`, module `MainWindow`:
  - `Color` stands for `java.awt.Color`, reduced to its three components.
  - The class `Brush` has the immutable `color` and the mutable `opaqueBrush: Brush?`.
  - `Brush.Valid()` is the class invariant. The cache is empty, or it is the
    brush itself, or it is another brush of the same colour that is its own
    counterpart.
  - `Brush.IsOpaque()` is `isOpaque`: the cache is the brush itself.
  - The component check and the three constructors are modelled.
  - The twelve predefined brush constants are modelled.
- `java_strings.dfy`, module `JavaStrings`, models Java's conversion of an
  `int` to text. The constructors' exception message is built with it. The
  module proves that this text determines the number.

A Java constructor that throws becomes a method returning
`Result<Brush>` (`Ok` or `Thrown` with the `IllegalArgumentException`
and its message). A Dafny constructor cannot fail, so the only Dafny
constructor is the private `Brush(Color, boolean)`, which cannot throw. The
two constructors that take `int` components become the static methods
`NewWithStyle` and `New`. Java's `static final` brush constants become the
datatype `Predefined`, their colours `PredefinedColor`, and `NewPredefined`,
which builds one through the public constructor. The constant BLUE is
(0, 0, 244), as the code has it, not (0, 0, 255).

## Model

| member | source | states |
|---|---|---|
| `MainWindow.Brush.CheckColorComponent` | Hexalib/src/fr/umlv/hexalib/MainWindow.java:172-177 | succeeds exactly for components in 0..255 and then returns the component unchanged; otherwise throws `IllegalArgumentException` whose message is "bad component value " followed by the component in decimal |
| `MainWindow.Brush.CheckedColor` | Hexalib/src/fr/umlv/hexalib/MainWindow.java:165-168 | yields a colour exactly when all three components are in 0..255, and then the colour of exactly those components; otherwise the exception of the first component, in the order red, green, blue, that is out of range |
| `MainWindow.Brush.constructor` | Hexalib/src/fr/umlv/hexalib/MainWindow.java:159-162 | stores the colour; the cache is the brush itself when the opaque style is asked for and null otherwise, so the brush is opaque exactly when asked; the invariant holds |
| `MainWindow.Brush.NewWithStyle` | Hexalib/src/fr/umlv/hexalib/MainWindow.java:164-170 | succeeds exactly when all components are in 0..255, with a fresh brush of exactly that colour whose cache is itself (opaque) or null; otherwise throws the first failing component's exception |
| `MainWindow.Brush.New` | Hexalib/src/fr/umlv/hexalib/MainWindow.java:189-191 | succeeds exactly when all components are in 0..255, with a fresh, valid brush of exactly that colour that is not opaque and whose cache is null; otherwise throws the first failing component's exception |
| `MainWindow.PredefinedColor` | Hexalib/src/fr/umlv/hexalib/MainWindow.java:219-274 | every predefined colour has all components in 0..255, so building a constant never throws |
| `MainWindow.Brush.NewPredefined` | Hexalib/src/fr/umlv/hexalib/MainWindow.java:219-274 | a predefined constant is a fresh, valid, non-opaque brush of its predefined colour with an empty cache |
| `MainWindow.Brush.IsOpaque` | Hexalib/src/fr/umlv/hexalib/MainWindow.java:201-203 | a brush is opaque exactly when its cache is the brush itself (reference identity, not a flag); an opaque brush therefore never has an empty cache and satisfies the invariant |
| `MainWindow.Brush.AsOpaque` | Hexalib/src/fr/umlv/hexalib/MainWindow.java:205-214 | returns an opaque brush of the receiver's colour and leaves it in the cache; with a filled cache it returns the cached brush and changes nothing; on an opaque brush it returns the receiver; with an empty cache it returns a fresh brush, distinct from the receiver; the receiver's own style never changes; the invariant of the receiver and of every other existing brush is preserved |
| `MainWindow.AsOpaqueTwice` | Hexalib/src/fr/umlv/hexalib/MainWindow.java:209-213 | two calls of `asOpaque` on one brush return the same opaque brush of the same colour, and the second call changes nothing |
| `MainWindow.MessageIdentifiesComponent` | Hexalib/src/fr/umlv/hexalib/MainWindow.java:172-177 | two rejected components whose exceptions carry the same message are equal |
| `JavaStrings.NatToDecimal` | Hexalib/src/fr/umlv/hexalib/MainWindow.java:174 | the decimal text of a non-negative number is non-empty, all digits, and starts with '0' only for zero (no leading zeros) |
| `JavaStrings.IntToString` | Hexalib/src/fr/umlv/hexalib/MainWindow.java:174 | the text of an `int` in the exception message is well-formed and starts with '-' exactly when the number is negative |
| `JavaStrings.NatToDecimalRoundTrip` | Hexalib/src/fr/umlv/hexalib/MainWindow.java:174 | reading the decimal digits back gives the number they were written from |
| `JavaStrings.IntToStringRoundTrip` | Hexalib/src/fr/umlv/hexalib/MainWindow.java:174 | parsing the text of an `int` gives back that `int` |
| `JavaStrings.IntToStringInjective` | Hexalib/src/fr/umlv/hexalib/MainWindow.java:174 | distinct numbers never have the same text |

## Left out

- The window itself is not modelled: the `JFrame` and `JComponent` setup, `paintComponent`, `getPreferredSize` and the `BufferedImage` (MainWindow.java:50-110). They are calls into the Swing toolkit, which is not part of this model.
- Mouse handling is not modelled: `MouseManager` and the `LinkedBlockingQueue` of mouse events (MainWindow.java:40-41, 72-92). They are a blocking hand-off between threads.
- `post` and the `EventQueue.invokeLater`/`invokeAndWait` hand-off to the UI thread (MainWindow.java:94-102, 283-294) are left out. They are concurrency with the toolkit.
- `drawHexagon`'s vertices are not modelled (MainWindow.java:134-148). They use floating-point `Math.cos`/`Math.sin` and casts to `int`.
- `clear` and `Brush.applyColor` (MainWindow.java:115-120, 193-195) are left out. They only pass the colour to `Graphics2D`.
- `java.awt.Color` is kept as three integers. Its own range check and its alpha channel are left out: the class is not part of this model, and the brush's own check runs first.
- Components are unbounded integers rather than 32-bit `int`s. The brush does no arithmetic on them, so no wrap-around can occur.
- Java's static constants are created once when the class is loaded and are shared by every caller. `NewPredefined` builds a fresh brush on each call, so the sharing is not modelled. This matters because `asOpaque` caches its result in the shared constant.
- AsOpaque: the model is sequential. In the source the cache fill (MainWindow.java:210-213) is an unsynchronised check-then-act on a field that is not volatile, and the shared constants (MainWindow.java:219-274) make it reachable from every thread. Two threads calling `asOpaque` on one brush at once can both see an empty cache and receive two different opaque brushes, and a later call may return either. The model promises one cached result per brush only for calls that do not overlap.
- AsOpaqueTwice: its result, the same object from both calls, holds only when one thread uses the brush, for the reason given for AsOpaque.
