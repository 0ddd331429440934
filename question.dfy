/** The question bank both front ends read at start-up (a Google Sheet in
    app.py, an Excel workbook in main.py): a list of records with the
    question text under `q` and the expected answer under `exp`. Loading is
    not modelled; the bank is a parameter of every operation that needs it. */
module QuestionBank {

  datatype Question = Question(prompt: string, expected: string)
}
