/** What the client pages draw for a record: the colour family of a badge or an avatar and
    the icon beside it. Each colour stands for the Tailwind classes of that family
    (`Green` for "bg-green-500/20 text-green-400" and its variants). */
module Display {

  datatype Tone = Red | Orange | Yellow | Green | Emerald | Blue | Purple | Pink | Indigo | Gray | Slate

  datatype Icon = Gavel | FileText | Handshake | CalendarIcon | Building | Folder
}
