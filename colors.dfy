/**
 * The colour type of the terminal-styling library the painter draws with
 * (crossterm's `style::Color`). Every placed block stores one of these, so
 * the palettes of both program iterations are total functions into it and
 * partial inverses out of it.
 */
module Colors {

  newtype u8 = x: int | 0 <= x < 256

  datatype Color =
    | Reset
    | Black
    | DarkGrey
    | Red
    | DarkRed
    | Green
    | DarkGreen
    | Yellow
    | DarkYellow
    | Blue
    | DarkBlue
    | Magenta
    | DarkMagenta
    | Cyan
    | DarkCyan
    | White
    | Grey
    | Rgb(r: u8, g: u8, b: u8)
    | AnsiValue(value: u8)
}
